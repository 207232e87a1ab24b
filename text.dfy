/** The few string operations the facades perform on texts they receive. */
module Text {

  /** `t` occurs in `s` at position `i`. */
  ghost predicate OccursAt(s: string, t: string, i: int)
  {
    0 <= i && i + |t| <= |s| && s[i..i + |t|] == t
  }

  /** Go's strings.Contains(s, t). */
  function Contains(s: string, t: string): (b: bool)
    ensures b <==> exists i :: OccursAt(s, t, i)
    decreases |s|
  {
    if |t| <= |s| && s[..|t|] == t then
      assert OccursAt(s, t, 0);
      true
    else if |s| <= |t| then
      assert forall i :: OccursAt(s, t, i) ==> i == 0;
      false
    else
      var r := Contains(s[1..], t);
      assert forall i :: OccursAt(s, t, i) && i > 0 ==> OccursAt(s[1..], t, i - 1);
      assert forall i :: OccursAt(s[1..], t, i) ==> OccursAt(s, t, i + 1);
      r
  }

  /** The first element of Go's strings.SplitN(s, sep, 2): the text before the first
      occurrence of a non-empty `sep`, or all of `s` when `sep` does not occur. */
  function BeforeFirst(s: string, sep: string): (r: string)
    requires sep != []
    ensures r <= s
    ensures forall i :: 0 <= i < |r| ==> !OccursAt(s, sep, i)
    ensures |r| < |s| ==> OccursAt(s, sep, |r|)
    ensures r == s <==> forall i :: !OccursAt(s, sep, i)
    decreases |s|
  {
    if |sep| <= |s| && s[..|sep|] == sep then
      assert OccursAt(s, sep, 0);
      []
    else if |s| == 0 then
      []
    else
      var rest := BeforeFirst(s[1..], sep);
      assert forall i :: OccursAt(s, sep, i) && i > 0 ==> OccursAt(s[1..], sep, i - 1);
      assert forall i :: OccursAt(s[1..], sep, i) ==> OccursAt(s, sep, i + 1);
      assert !OccursAt(s, sep, 0);
      [s[0]] + rest
  }

  /** Every character of `s` is a decimal digit. */
  predicate AllDigits(s: string)
  {
    forall i :: 0 <= i < |s| ==> '0' <= s[i] <= '9'
  }

  /** The number a string of decimal digits denotes, most significant digit first. */
  function DecimalValue(s: string): nat
    requires AllDigits(s)
    decreases |s|
  {
    if s == [] then 0
    else DecimalValue(s[..|s| - 1]) * 10 + (s[|s| - 1] as int - '0' as int)
  }

  /** A decimal digit. */
  function Digit(d: nat): (c: char)
    requires d < 10
    ensures '0' <= c <= '9' && c as int - '0' as int == d
  {
    "0123456789"[d]
  }

  /** The decimal text of a natural number, as fmt.Sprintf("%d", n) prints it: digits that
      denote `n`, without a leading zero unless `n` is zero. */
  function NatToDecimal(n: nat): (r: string)
    ensures |r| > 0 && AllDigits(r)
    ensures DecimalValue(r) == n
    ensures n == 0 <==> r == "0"
    ensures |r| > 1 ==> r[0] != '0'
  {
    if n < 10 then [Digit(n)]
    else
      var high := NatToDecimal(n / 10);
      var r := high + [Digit(n % 10)];
      assert r[..|r| - 1] == high;
      r
  }

  /** fmt.Sprintf("%d", n) for any integer: a minus sign exactly for a negative number,
      then the digits of its magnitude without a leading zero. */
  function IntToDecimal(n: int): (r: string)
    ensures |r| > 0
    ensures (r[0] == '-') <==> n < 0
    ensures n >= 0 ==> AllDigits(r) && DecimalValue(r) == n && (|r| > 1 ==> r[0] != '0')
    ensures n < 0 ==> |r| > 1 && AllDigits(r[1..]) && DecimalValue(r[1..]) == -n && r[1] != '0'
  {
    if n < 0 then
      var m := NatToDecimal(-n);
      assert ("-" + m)[1..] == m;
      "-" + m
    else NatToDecimal(n)
  }

}
