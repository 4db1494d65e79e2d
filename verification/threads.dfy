/** The threads that meet at one event loop: the one it belongs to, and all others. */
module Threads {
  datatype Who = Owner | Foreign(thread: nat)
}
