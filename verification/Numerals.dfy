/** Decimal rendering, and the two kinds of string built from it: tracking numbers and cache keys. */
module Numerals {
  import opened Domain

  function Digit(d: nat): char
    requires d < 10
  {
    '0' + d as char
  }

  predicate IsDigit(c: char) {
    '0' <= c <= '9'
  }

  function Digits(n: nat): (s: string)
    ensures s != [] && forall c | c in s :: IsDigit(c)
  {
    if n < 10 then [Digit(n)] else Digits(n / 10) + [Digit(n % 10)]
  }

  /** The number a string of digits denotes. */
  function Value(s: string): nat
    requires forall c | c in s :: IsDigit(c)
  {
    if s == [] then 0
    else
      assert IsDigit(s[|s| - 1]);
      Value(s[..|s| - 1]) * 10 + (s[|s| - 1] - '0') as nat
  }

  function Zeros(k: nat): string {
    seq(k, _ => '0')
  }

  /** `{n:06d}`: at least six digits, more when the number needs them. */
  function Padded(n: nat): (s: string)
    ensures forall c | c in s :: IsDigit(c)
    ensures |s| >= 6
  {
    var s := Digits(n);
    if |s| >= 6 then s else Zeros(6 - |s|) + s
  }

  function TrackingNumber(year: nat, id: nat): string {
    "TRK-" + (Digits(year) + "-" + Padded(id))
  }

  /** Position of the first dash, or the length. */
  function DashAt(s: string): (k: nat)
    ensures k <= |s|
  {
    if s == [] || s[0] == '-' then 0 else 1 + DashAt(s[1..])
  }

  /** Reads a tracking number back as year and shipment id. */
  function Parse(t: string): Option<(nat, nat)> {
    if !("TRK-" <= t) then None
    else
      var rest := t[4..];
      var k := DashAt(rest);
      if k == |rest| then None
      else
        var y, n := rest[..k], rest[k + 1..];
        if (forall c | c in y :: IsDigit(c)) && (forall c | c in n :: IsDigit(c)) then Some((Value(y), Value(n)))
        else None
  }

  lemma {:induction false} ValueOfDigits(n: nat)
    ensures Value(Digits(n)) == n
  {
    if n >= 10 {
      ValueOfDigits(n / 10);
      assert Digits(n)[..|Digits(n)| - 1] == Digits(n / 10);
    }
  }

  lemma {:induction false} ValueOfZeros(k: nat, s: string)
    requires forall c | c in s :: IsDigit(c)
    ensures Value(Zeros(k) + s) == Value(s)
    decreases |s|, k
  {
    if s == [] {
      assert Zeros(k) + s == Zeros(k);
      if k > 0 {
        ValueOfZeros(k - 1, s);
        assert Zeros(k)[..k - 1] == Zeros(k - 1) + [] == Zeros(k - 1);
      }
    } else {
      var n := |s| - 1;
      ValueOfZeros(k, s[..n]);
      assert (Zeros(k) + s)[..k + n] == Zeros(k) + s[..n];
    }
  }

  lemma {:induction false} DashFound(y: string, rest: string)
    requires '-' !in y
    ensures DashAt(y + "-" + rest) == |y|
  {
    var s := y + "-" + rest;
    if y != [] {
      assert s[1..] == y[1..] + "-" + rest;
      DashFound(y[1..], rest);
    }
  }

  lemma ValueOfPadded(n: nat)
    ensures Value(Padded(n)) == n
  {
    ValueOfDigits(n);
    if |Digits(n)| < 6 {
      ValueOfZeros(6 - |Digits(n)|, Digits(n));
    }
  }

  lemma SplitAtDash(y: string, n: string)
    requires '-' !in y
    ensures var rest := y + "-" + n;
            DashAt(rest) == |y| < |rest| && rest[..|y|] == y && rest[|y| + 1..] == n
  {
    DashFound(y, n);
  }

  /** Reading back what was rendered: a left inverse on all years and all ids, of any length. */
  lemma ParseTracking(year: nat, id: nat)
    ensures Parse(TrackingNumber(year, id)) == Some((year, id)) && "TRK-" <= TrackingNumber(year, id)
  {
    var y, n := Digits(year), Padded(id);
    assert TrackingNumber(year, id)[4..] == y + "-" + n;
    SplitAtDash(y, n);
    ValueOfDigits(year);
    ValueOfPadded(id);
  }

  /** Ids below a million are padded to exactly six digits; longer ones are rendered as they are. */
  lemma PaddedLength(n: nat)
    ensures n < 1_000_000 ==> |Padded(n)| == 6
    ensures n >= 1_000_000 ==> Padded(n) == Digits(n)
  {
    DigitsGrow(n, 6);
  }

  function PowerOfTen(k: nat): nat {
    if k == 0 then 1 else 10 * PowerOfTen(k - 1)
  }

  lemma {:induction false} DigitsGrow(n: nat, k: nat)
    requires k >= 1
    ensures |Digits(n)| <= k <==> n < PowerOfTen(k)
    ensures PowerOfTen(1) == 10 && PowerOfTen(6) == 1_000_000
  {
    assert PowerOfTen(2) == 100 && PowerOfTen(4) == 10_000;
    if k > 1 && n >= 10 {
      DigitsGrow(n / 10, k - 1);
    } else if k > 1 {
      PowerPositive(k - 1);
    }
  }

  lemma {:induction false} PowerPositive(k: nat)
    ensures PowerOfTen(k) >= 1
  {
    if k > 0 {
      PowerPositive(k - 1);
    }
  }

  /** Different shipments never share a tracking number, whatever years they were created in. */
  lemma TrackingInjective(year: nat, id: nat, year': nat, id': nat)
    requires TrackingNumber(year, id) == TrackingNumber(year', id')
    ensures id == id' && year == year'
  {
    ParseTracking(year, id);
    ParseTracking(year', id');
  }

  function Decimal(n: int): string {
    if n < 0 then "-" + Digits(-n) else Digits(n)
  }

  function OrderKey(id: int): string {
    "order:" + Decimal(id)
  }

  function ProductKey(id: int): string {
    "product:" + Decimal(id)
  }

  function ShipmentKey(id: int): string {
    "shipment:" + Decimal(id)
  }

  lemma DecimalInjective(m: int, n: int)
    requires Decimal(m) == Decimal(n)
    ensures m == n
  {
    assert Digits(if m < 0 then -m else m)[0] in Digits(if m < 0 then -m else m);
    assert Digits(if n < 0 then -n else n)[0] in Digits(if n < 0 then -n else n);
    if m < 0 {
      assert Decimal(m)[1..] == Digits(-m);
      assert Decimal(n)[1..] == Digits(-n);
      ValueOfDigits(-m);
      ValueOfDigits(-n);
    } else {
      ValueOfDigits(m);
      ValueOfDigits(n);
    }
  }

  /** Cache keys of different entities never collide. */
  lemma KeysDistinct(m: int, n: int)
    ensures OrderKey(m) != ProductKey(n) && OrderKey(m) != ShipmentKey(n) && ProductKey(m) != ShipmentKey(n)
    ensures OrderKey(m) == OrderKey(n) ==> m == n
    ensures ProductKey(m) == ProductKey(n) ==> m == n
    ensures ShipmentKey(m) == ShipmentKey(n) ==> m == n
  {
    assert OrderKey(m)[0] == 'o' && ProductKey(m)[0] == ProductKey(n)[0] == 'p' && ShipmentKey(n)[0] == 's';
    assert OrderKey(m)[6..] == Decimal(m) && OrderKey(n)[6..] == Decimal(n);
    assert ProductKey(m)[8..] == Decimal(m) && ProductKey(n)[8..] == Decimal(n);
    assert ShipmentKey(m)[9..] == Decimal(m) && ShipmentKey(n)[9..] == Decimal(n);
    if OrderKey(m) == OrderKey(n) || ProductKey(m) == ProductKey(n) || ShipmentKey(m) == ShipmentKey(n) {
      DecimalInjective(m, n);
    }
  }

}
