/**
 * The string operations of Python that the pipeline relies on: `str.strip()`
 * with no argument, truthiness of an optional string, `str(int)`, and the
 * report's `_md_escape` built from them.
 */
module Text {
  import opened Wrappers
  import opened Seqs

  /** The characters Python's `str.isspace` accepts, which `str.strip()` removes. */
  predicate IsSpace(c: char) {
    || c == ' '
    || ('\t' <= c <= '\r')
    || ('\U{1C}' <= c <= '\U{1F}')
    || c == '\U{85}' || c == '\U{A0}' || c == '\U{1680}'
    || ('\U{2000}' <= c <= '\U{200A}')
    || c == '\U{2028}' || c == '\U{2029}' || c == '\U{202F}' || c == '\U{205F}'
    || c == '\U{3000}'
  }

  /** `s.lstrip()` */
  function TrimLeft(s: string): string {
    if s != [] && IsSpace(s[0]) then TrimLeft(s[1..]) else s
  }

  /** `s.rstrip()` */
  function TrimRight(s: string): string {
    if s != [] && IsSpace(Last(s)) then TrimRight(DropLast(s)) else s
  }

  /** `lstrip` removes a prefix made only of spaces and leaves a string that does not start with one. */
  lemma {:induction false} TrimLeftSpec(s: string)
    ensures |TrimLeft(s)| <= |s| && TrimLeft(s) == s[|s| - |TrimLeft(s)|..]
    ensures TrimLeft(s) == [] || !IsSpace(TrimLeft(s)[0])
    ensures forall i :: 0 <= i < |s| - |TrimLeft(s)| ==> IsSpace(s[i])
    decreases |s|
  {
    if s != [] && IsSpace(s[0]) {
      TrimLeftSpec(s[1..]);
    }
  }

  /** `rstrip` removes a suffix made only of spaces and leaves a string that does not end with one. */
  lemma {:induction false} TrimRightSpec(s: string)
    ensures |TrimRight(s)| <= |s| && TrimRight(s) == s[..|TrimRight(s)|]
    ensures TrimRight(s) == [] || !IsSpace(Last(TrimRight(s)))
    ensures forall i :: |TrimRight(s)| <= i < |s| ==> IsSpace(s[i])
    decreases |s|
  {
    if s != [] && IsSpace(Last(s)) {
      TrimRightSpec(DropLast(s));
    }
  }

  /** `s.strip()`. */
  function Strip(s: string): (r: string)
    ensures r == [] || (!IsSpace(r[0]) && !IsSpace(Last(r)))
    ensures forall c :: c in r ==> c in s
  {
    var l := TrimLeft(s);
    TrimLeftSpec(s);
    TrimRightSpec(l);
    var r := TrimRight(l);
    assert forall c :: c in r ==> c in l;
    r
  }

  /**
   * `strip` removes exactly a leading and a trailing run of whitespace: the
   * result is a contiguous slice of the input, and only spaces lie outside it.
   */
  lemma StripSlice(s: string)
    ensures exists i, j ::
      && 0 <= i <= j <= |s| && Strip(s) == s[i..j]
      && (forall k :: 0 <= k < i ==> IsSpace(s[k]))
      && (forall k :: j <= k < |s| ==> IsSpace(s[k]))
  {
    var l := TrimLeft(s);
    TrimLeftSpec(s);
    TrimRightSpec(l);
    var i := |s| - |l|;
    var j := i + |TrimRight(l)|;
    assert Strip(s) == s[i..j];
    assert forall k :: j <= k < |s| ==> s[k] == l[k - i];
  }

  /** Stripping a stripped string changes nothing. */
  lemma StripIdempotent(s: string)
    ensures Strip(Strip(s)) == Strip(s)
  {
    var t := Strip(s);
    assert TrimLeft(t) == t;
    TrimLeftSpec(t);
    assert TrimRight(t) == t;
  }

  /** Python truthiness of an optional string: neither `None` nor `""`. */
  predicate IsTruthy(s: Option<string>) {
    s.Some? && s.value != ""
  }

  /** `s.replace(from, to)` for one-character `from` and `to`. */
  function ReplaceChar(s: string, from: char, to: char): (r: string)
    ensures |r| == |s|
    ensures forall i :: 0 <= i < |s| ==> r[i] == if s[i] == from then to else s[i]
  {
    seq(|s|, i requires 0 <= i < |s| => if s[i] == from then to else s[i])
  }

  /** `_md_escape(s)`: `(s or "").replace("\n", " ").strip()`. */
  function MdEscape(s: Option<string>): (r: string)
    ensures '\n' !in r
    ensures r == [] || (!IsSpace(r[0]) && !IsSpace(Last(r)))
  {
    Strip(ReplaceChar(s.GetOr(""), '\n', ' '))
  }

  /**
   * Escaping turns every newline into a space and then strips: the result
   * is a contiguous slice of that text with only whitespace outside it.
   */
  lemma MdEscapeSlice(s: Option<string>)
    ensures var t := ReplaceChar(s.GetOr(""), '\n', ' ');
      exists i, j ::
        && 0 <= i <= j <= |t| && MdEscape(s) == t[i..j]
        && (forall k :: 0 <= k < i ==> IsSpace(t[k]))
        && (forall k :: j <= k < |t| ==> IsSpace(t[k]))
  {
    StripSlice(ReplaceChar(s.GetOr(""), '\n', ' '));
  }

  /** `None` and `""` both escape to the empty string. */
  lemma MdEscapeOfNothing()
    ensures MdEscape(None) == "" && MdEscape(Some("")) == ""
  {
    assert ReplaceChar("", '\n', ' ') == "";
  }

  /** Escaping an escaped string changes nothing. */
  lemma MdEscapeIdempotent(s: Option<string>)
    ensures MdEscape(Some(MdEscape(s))) == MdEscape(s)
  {
    var inner := ReplaceChar(s.GetOr(""), '\n', ' ');
    var t := MdEscape(s);
    assert ReplaceChar(t, '\n', ' ') == t;
    StripIdempotent(inner);
  }

  function DigitChar(d: nat): char
    requires d < 10
  {
    "0123456789"[d]
  }

  /** `str(n)` for a non-negative integer: its decimal digits. */
  function NatToString(n: nat): string {
    if n < 10 then [DigitChar(n)] else NatToString(n / 10) + [DigitChar(n % 10)]
  }
}
