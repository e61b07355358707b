/** Text building blocks shared by the renderer: start/end wrappers, PHP's
    implode('', ...), and PHP's decimal rendering of an integer. */
module HtmlText {

  /** A start/end pair placed around a piece of markup (the 'start' and
      'end' entries of the wrapHtml and wrapHtmlItems options). */
  datatype Wrap = Wrap(start: string, end: string)

  /** `w.start`, then `s`, then `w.end`. */
  function WrapWith(w: Wrap, s: string): string {
    w.start + s + w.end
  }

  /** True when `f` begins with `w.start` and finishes with `w.end`. */
  predicate WrappedBy(w: Wrap, f: string) {
    |w.start| + |w.end| <= |f| && w.start <= f && f[|f| - |w.end|..] == w.end
  }

  lemma WrapWithIsWrapped(w: Wrap, s: string)
    ensures WrappedBy(w, WrapWith(w, s))
    ensures w.start + s <= WrapWith(w, s)
  {
    var f := WrapWith(w, s);
    assert f[..|w.start|] == w.start;
    assert f[..|w.start| + |s|] == w.start + s;
    assert f[|f| - |w.end|..] == w.end;
  }

  /** PHP's implode('', pieces): the pieces concatenated in order. */
  function Implode(pieces: seq<string>): string {
    if pieces == [] then "" else pieces[0] + Implode(pieces[1..])
  }

  /** `p + a` is not a prefix of a text that begins with `p + b` when `a`
      and `b` disagree at position `k`. */
  lemma PrefixesDiverge(p: string, a: string, b: string, t: string, k: nat)
    requires k < |a| && k < |b| && a[k] != b[k]
    requires p + b <= t
    ensures !(p + a <= t)
  {
    assert t[|p| + k] == (p + b)[|p| + k] == b[k];
    assert (p + a)[|p| + k] == a[k];
  }

  /** `p + a` is a prefix of `p + (a + x) + y`. */
  lemma PrefixOfWrapped(p: string, a: string, x: string, y: string)
    ensures p + a <= p + (a + x) + y
  {
    var t := p + (a + x) + y;
    assert t[..|p + a|] == p + a;
  }

  /** Whatever is a prefix of `body` shows, right after `w.start` and
      `open`, at the head of `WrapWith(w, open + body + close)`. */
  lemma PrefixThroughWrap(w: Wrap, open: string, pre: string, body: string, close: string)
    requires pre <= body
    ensures w.start + open + pre <= WrapWith(w, open + body + close)
  {
    var inner := open + body + close;
    assert open + pre <= open + body <= inner;
    assert w.start + (open + pre) <= w.start + inner <= WrapWith(w, inner);
    assert w.start + open + pre == w.start + (open + pre);
  }

  /** A prefix of the first piece is a prefix of the implosion. */
  lemma PrefixOfImplode(pre: string, pieces: seq<string>)
    requires |pieces| > 0 && pre <= pieces[0]
    ensures pre <= Implode(pieces)
  {
    assert Implode(pieces) == pieces[0] + Implode(pieces[1..]);
  }

  function DigitChar(d: nat): (c: char)
    requires d < 10
    ensures '0' <= c <= '9'
    ensures DigitValue(c) == d
  {
    "0123456789"[d]
  }

  /** The value of a decimal digit character. */
  function DigitValue(c: char): int {
    c as int - '0' as int
  }

  /** The number a string of decimal digits denotes, most significant
      digit first; the empty string denotes 0. */
  function DecimalValue(s: string): int {
    if s == [] then 0 else 10 * DecimalValue(s[..|s| - 1]) + DigitValue(s[|s| - 1])
  }

  /** Decimal digits of a natural number, most significant first, with no
      leading zero. */
  function NatToDecimal(n: nat): (r: string)
    ensures |r| > 0
    ensures forall i :: 0 <= i < |r| ==> '0' <= r[i] <= '9'
    ensures r[0] == '0' <==> n == 0
    ensures n == 0 ==> r == "0"
    ensures DecimalValue(r) == n
    decreases n
  {
    if n < 10 then
      assert [DigitChar(n)][..0] == [];
      [DigitChar(n)]
    else
      var r := NatToDecimal(n / 10) + [DigitChar(n % 10)];
      assert r[..|r| - 1] == NatToDecimal(n / 10);
      r
  }

  /** PHP's string interpolation of an integer: an optional minus sign and
      the decimal digits of the magnitude. */
  function IntToStr(n: int): (r: string)
    ensures |r| > 0
    ensures r[0] == '-' <==> n < 0
    ensures var d := if n < 0 then 1 else 0;
      && d < |r|
      && (forall i :: d <= i < |r| ==> '0' <= r[i] <= '9')
      && (r[d] == '0' <==> n == 0)
      && (n == 0 ==> r == "0")
      && DecimalValue(r[d..]) == (if n < 0 then -n else n)
  {
    if n < 0 then
      var r := "-" + NatToDecimal(-n);
      assert r[1..] == NatToDecimal(-n);
      r
    else
      assert NatToDecimal(n)[0..] == NatToDecimal(n);
      NatToDecimal(n)
  }
}
