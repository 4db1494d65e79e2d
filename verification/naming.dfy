/** Connection names: the server's name, then "-name#id" printed into a 64-byte buffer. */
module Naming {

  /** snprintf into 64 bytes keeps 63 characters. */
  const NAME_LIMIT: nat := 63

  const DIGITS: string := "0123456789"

  function Decimal(n: nat): (s: string)
    ensures s != []
  {
    if n < 10 then [DIGITS[n]] else Decimal(n / 10) + [DIGITS[n % 10]]
  }

  function Truncate(s: string): string {
    if |s| <= NAME_LIMIT then s else s[..NAME_LIMIT]
  }

  function Stem(name: string): string {
    "-" + name + "#"
  }

  function ConnName(name: string, id: nat): string {
    name + Truncate(Stem(name) + Decimal(id))
  }

  /** The whole of "-name#id" fits. */
  predicate Fits(name: string, id: nat) {
    |name| + 2 + |Decimal(id)| <= NAME_LIMIT
  }

  /** Reading a numeral back. */
  ghost function Value(s: string): nat {
    if s == [] then 0
    else 10 * Value(s[..|s| - 1]) + DigitValue(s[|s| - 1])
  }

  ghost function DigitValue(c: char): nat {
    if '0' <= c <= '9' then (c - '0') as nat else 0
  }

  /** An id is printed in decimal, without leading zeros. */
  lemma {:induction false} DecimalReadsBack(n: nat)
    ensures Value(Decimal(n)) == n && (Decimal(n)[0] == '0' <==> n == 0)
  {
    assert forall d :: 0 <= d < 10 ==> DigitValue(DIGITS[d]) == d;
    var s := Decimal(n);
    if n < 10 {
      assert s[..0] == [] && Value([]) == 0;
    } else {
      DecimalReadsBack(n / 10);
      assert s[..|s| - 1] == Decimal(n / 10);
    }
  }

  lemma DecimalInjective(i: nat, j: nat)
    requires Decimal(i) == Decimal(j)
    ensures i == j
  {
    DecimalReadsBack(i);
    DecimalReadsBack(j);
  }

  lemma {:induction false} DecimalLengthMonotone(i: nat, j: nat)
    requires i <= j
    ensures |Decimal(i)| <= |Decimal(j)|
  {
    if 10 <= i {
      DecimalLengthMonotone(i / 10, j / 10);
    }
  }

  /** Cutting a numeral short leaves the numeral of a smaller number. */
  lemma {:induction false} DecimalPrefix(k: nat, r: nat) returns (p: nat)
    requires 1 <= r < |Decimal(k)|
    ensures 1 <= p < k && Decimal(p) == Decimal(k)[..r]
    decreases k
  {
    var shorter := Decimal(k / 10);
    assert Decimal(k)[..|shorter|] == shorter;
    if r == |shorter| {
      p := k / 10;
    } else {
      p := DecimalPrefix(k / 10, r);
      assert Decimal(k)[..r] == shorter[..r];
    }
  }

  lemma FittingName(name: string, id: nat)
    requires Fits(name, id)
    ensures ConnName(name, id) == (name + Stem(name)) + Decimal(id)
  {
    hide Decimal;
    assert name + (Stem(name) + Decimal(id)) == (name + Stem(name)) + Decimal(id);
  }

  /** What snprintf leaves of "-name#id" in 64 bytes, its terminator included, goes behind the server's name. */
  lemma ConnNameMeaning(name: string, id: nat)
    ensures var suffix := "-" + name + "#" + Decimal(id);
            && ConnName(name, id) == name + (if |suffix| < 64 then suffix else suffix[..63])
            && (Fits(name, id) <==> |suffix| < 64)
  {
    hide Decimal;
    assert Stem(name) + Decimal(id) == "-" + name + "#" + Decimal(id);
  }

  lemma SamePrefix(p: string, a: string, b: string)
    requires p + a == p + b
    ensures a == b
  {
    assert a == (p + a)[|p|..] && b == (p + b)[|p|..];
  }

  /** Names that are not cut are equal only for equal ids. */
  lemma FittingNamesDiffer(name: string, i: nat, j: nat)
    requires Fits(name, i) && Fits(name, j) && i != j
    ensures ConnName(name, i) != ConnName(name, j)
  {
    hide ConnName, Stem, Decimal, Fits;
    FittingName(name, i);
    FittingName(name, j);
    if ConnName(name, i) == ConnName(name, j) {
      SamePrefix(name + Stem(name), Decimal(i), Decimal(j));
      DecimalInjective(i, j);
    }
  }

  /** As soon as an id is cut, its name is also the name of an earlier connection. */
  lemma CutNameCollides(name: string, k: nat) returns (p: nat)
    requires !Fits(name, k) && 2 <= k
    ensures 1 <= p < k && ConnName(name, p) == ConnName(name, k)
  {
    var stem := Stem(name);
    if NAME_LIMIT <= |stem| {
      p := 1;
      assert (stem + Decimal(p))[..NAME_LIMIT] == stem[..NAME_LIMIT];
      assert (stem + Decimal(k))[..NAME_LIMIT] == stem[..NAME_LIMIT];
    } else {
      var r := NAME_LIMIT - |stem|;
      p := DecimalPrefix(k, r);
      assert |Decimal(p)| == r;
      assert (stem + Decimal(k))[..NAME_LIMIT] == stem + Decimal(k)[..r];
    }
  }

  /** The first k connections of a server have distinct names exactly when the last of them fits the buffer. */
  lemma NamesDistinctIffFit(name: string, k: nat)
    ensures (forall i, j :: 1 <= i < j <= k ==> ConnName(name, i) != ConnName(name, j)) <==> Fits(name, k) || k <= 1
  {
    if Fits(name, k) {
      forall i, j | 1 <= i < j <= k ensures ConnName(name, i) != ConnName(name, j) {
        DecimalLengthMonotone(i, k);
        DecimalLengthMonotone(j, k);
        FittingNamesDiffer(name, i, j);
      }
    } else if 2 <= k {
      var p := CutNameCollides(name, k);
      assert 1 <= p < k <= k && ConnName(name, p) == ConnName(name, k);
    }
  }
}
