/** Positions as the string keys `"x,y"` that every position set of the game
    uses (`${x},${y}`), and the parse back with `split(',').map(Number)`. */
module PositionKey {
  import opened Types

  predicate IsDigit(c: char) {
    '0' <= c <= '9'
  }

  predicate AllDigits(s: string) {
    forall i :: 0 <= i < |s| ==> IsDigit(s[i])
  }

  predicate NoComma(s: string) {
    forall i :: 0 <= i < |s| ==> s[i] != ','
  }

  function DigitChar(d: nat): (c: char)
    requires d < 10
    ensures IsDigit(c) && (c as int) - ('0' as int) == d
  {
    "0123456789"[d]
  }

  function DigitValue(c: char): nat
    requires IsDigit(c)
  {
    (c as int) - ('0' as int)
  }

  /** The decimal rendering of a natural number, most significant digit first. */
  function NatToString(n: nat): (s: string)
    ensures |s| >= 1 && AllDigits(s)
  {
    if n < 10 then [DigitChar(n)] else NatToString(n / 10) + [DigitChar(n % 10)]
  }

  /** JavaScript's template rendering of an integer. */
  function IntToString(n: int): (s: string)
    ensures NoComma(s)
  {
    if n < 0 then "-" + NatToString(-n) else NatToString(n)
  }

  /** The value of a string of decimal digits. */
  function DigitsValue(s: string): nat
    requires AllDigits(s)
  {
    if s == [] then 0 else DigitsValue(s[..|s| - 1]) * 10 + DigitValue(s[|s| - 1])
  }

  /** JavaScript's `Number(s)` on the strings a key can hold: the empty string
      is 0, an optionally signed run of digits is its value, anything else is
      NaN (`None`). */
  function Number(s: string): Option<int> {
    if s == [] then Some(0)
    else if AllDigits(s) then Some(DigitsValue(s))
    else if s[0] == '-' && |s| > 1 && AllDigits(s[1..]) then Some(-(DigitsValue(s[1..]) as int))
    else if s[0] == '+' && |s| > 1 && AllDigits(s[1..]) then Some(DigitsValue(s[1..]))
    else None
  }

  /** JavaScript's `s.split(',')`: the pieces between commas, always at least one. */
  function Split(s: string): (parts: seq<string>)
    ensures |parts| >= 1
    decreases |s|
  {
    if s == [] then [""]
    else
      var rest := Split(s[1..]);
      if s[0] == ',' then [""] + rest else [[s[0]] + rest[0]] + rest[1..]
  }

  /** The key of a position, `${x},${y}`. */
  function Key(p: Pos): string {
    IntToString(p.x) + "," + IntToString(p.y)
  }

  /** `const [x, y] = key.split(',').map(Number)`: a position when both of the
      first two pieces are numbers; a missing piece (undefined) or NaN gives
      `None`, which makes every distance computed from it NaN. */
  function ParseKey(s: string): Option<Pos> {
    var parts := Split(s);
    if |parts| < 2 then None
    else
      match (Number(parts[0]), Number(parts[1]))
      case (Some(x), Some(y)) => Some(Pos(x, y))
      case _ => None
  }

  lemma {:induction false} DigitsValueOfNatToString(n: nat)
    ensures DigitsValue(NatToString(n)) == n
  {
    var s := NatToString(n);
    if n >= 10 {
      assert s[..|s| - 1] == NatToString(n / 10);
      DigitsValueOfNatToString(n / 10);
    }
  }

  lemma NumberOfNatToString(n: nat)
    ensures Number(NatToString(n)) == Some(n)
  {
    DigitsValueOfNatToString(n);
  }

  /** `Number` inverts the template rendering of every integer. */
  lemma NumberOfIntToString(n: int)
    ensures Number(IntToString(n)) == Some(n)
  {
    if n < 0 {
      var digits := NatToString(-n);
      var s := "-" + digits;
      assert s[0] == '-' && !IsDigit(s[0]) && !AllDigits(s);
      assert s[1..] == digits;
      DigitsValueOfNatToString(-n);
      assert Number(s) == Some(-(DigitsValue(digits) as int));
    } else {
      NumberOfNatToString(n);
    }
  }

  lemma {:induction false} SplitNoComma(a: string)
    requires NoComma(a)
    ensures Split(a) == [a]
    decreases |a|
  {
    if a != [] {
      SplitNoComma(a[1..]);
      assert [a[0]] + a[1..] == a;
    }
  }

  lemma {:induction false} SplitAtComma(a: string, b: string)
    requires NoComma(a)
    ensures Split(a + [','] + b) == [a] + Split(b)
    decreases |a|
  {
    if a == [] {
      assert a + [','] + b == [','] + b;
      assert ([','] + b)[1..] == b;
    } else {
      assert (a + [','] + b)[1..] == a[1..] + [','] + b;
      SplitAtComma(a[1..], b);
      assert [a[0]] + a[1..] == a;
    }
  }

  /** Parsing a key with `split(',').map(Number)` gives back the position. */
  lemma KeyRoundTrip(p: Pos)
    ensures ParseKey(Key(p)) == Some(p)
  {
    var xs, ys := IntToString(p.x), IntToString(p.y);
    assert Key(p) == xs + [','] + ys;
    SplitAtComma(xs, ys);
    SplitNoComma(ys);
    NumberOfIntToString(p.x);
    NumberOfIntToString(p.y);
  }

  /** Two positions share a key exactly when they are the same position. */
  lemma KeyInjective(p: Pos, q: Pos)
    ensures Key(p) == Key(q) <==> p == q
  {
    if Key(p) == Key(q) {
      KeyRoundTrip(p);
      KeyRoundTrip(q);
    }
  }
}
