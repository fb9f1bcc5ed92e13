/**
 * The JavaScript string operations the components rely on, over sequences of
 * characters: `split` on a one-character separator, `join`, `trim`,
 * `indexOf`, `slice(0, end)`, upper-casing, and the decimal rendering of a
 * millisecond timestamp.
 */
module Strings {

  /** The characters `String.prototype.trim` removes: white space and line terminators. */
  predicate IsWhitespace(c: char) {
    || c == ' ' || c == '\t' || c == '\n' || c == '\r'
    || c == '\U{000B}' || c == '\U{000C}' || c == '\U{00A0}' || c == '\U{FEFF}'
    || c == '\U{1680}' || ('\U{2000}' <= c <= '\U{200A}')
    || c == '\U{2028}' || c == '\U{2029}' || c == '\U{202F}' || c == '\U{205F}' || c == '\U{3000}'
  }

  predicate AllWhitespace(s: string) {
    forall i :: 0 <= i < |s| ==> IsWhitespace(s[i])
  }

  /** Neither end of `s` is white space: `trim` leaves `s` as it is. */
  predicate Trimmed(s: string) {
    s == [] || (!IsWhitespace(s[0]) && !IsWhitespace(s[|s| - 1]))
  }

  function TrimStart(s: string): (r: string)
    ensures |r| <= |s| && r == s[|s| - |r|..]
    ensures r == [] || !IsWhitespace(r[0])
    ensures AllWhitespace(s[..|s| - |r|])
  {
    if |s| > 0 && IsWhitespace(s[0]) then
      var r := TrimStart(s[1..]);
      assert forall i :: 1 <= i < |s| - |r| ==> s[i] == s[1..][i - 1];
      r
    else s
  }

  function TrimEnd(s: string): (r: string)
    ensures |r| <= |s| && r == s[..|r|]
    ensures r == [] || !IsWhitespace(r[|r| - 1])
    ensures AllWhitespace(s[|r|..])
  {
    if |s| > 0 && IsWhitespace(s[|s| - 1]) then
      var r := TrimEnd(s[..|s| - 1]);
      assert forall i :: |r| <= i < |s| - 1 ==> s[i] == s[..|s| - 1][i];
      r
    else s
  }

  /**
   * `s.trim()`: the longest infix of `s` that neither starts nor ends with
   * white space. It is a prefix of `TrimStart(s)`, which is a suffix of `s`.
   */
  function Trim(s: string): (r: string)
    ensures Trimmed(r)
    ensures r <= TrimStart(s)
  {
    var t := TrimStart(s);
    var r := TrimEnd(t);
    assert r != [] ==> r[0] == t[0];
    r
  }

  /** `s.split(sep)` for a one-character separator: always at least one piece, none holding `sep`. */
  function Split(s: string, sep: char): (r: seq<string>)
    ensures |r| >= 1
    ensures forall k :: 0 <= k < |r| ==> sep !in r[k]
  {
    if |s| == 0 then [""]
    else if s[0] == sep then [""] + Split(s[1..], sep)
    else
      var rest := Split(s[1..], sep);
      [[s[0]] + rest[0]] + rest[1..]
  }

  /** `parts.join(sep)`. */
  function Join(parts: seq<string>, sep: string): string {
    if |parts| == 0 then ""
    else if |parts| == 1 then parts[0]
    else parts[0] + sep + Join(parts[1..], sep)
  }

  /**
   * `.map(t => t.trim()).filter(Boolean)` over split pieces: the trimmed
   * pieces, with the empty ones dropped.
   */
  function Clean(pieces: seq<string>): (r: seq<string>)
    ensures |r| <= |pieces|
    ensures forall k :: 0 <= k < |r| ==> r[k] != "" && Trimmed(r[k])
  {
    if |pieces| == 0 then []
    else
      var t := Trim(pieces[0]);
      (if t == "" then [] else [t]) + Clean(pieces[1..])
  }

  /** `s.split(sep).map(t => t.trim()).filter(Boolean)`. */
  function ParseList(s: string, sep: char): (r: seq<string>)
    ensures forall k :: 0 <= k < |r| ==> r[k] != "" && Trimmed(r[k]) && sep !in r[k]
  {
    CleanKeepsSeparatorOut(Split(s, sep), sep);
    Clean(Split(s, sep))
  }

  lemma {:induction false} TrimIsInfix(s: string, c: char)
    requires c !in s
    ensures c !in Trim(s)
  {
    var r := Trim(s);
    var t := TrimStart(s);
    var k := |s| - |t|;
    forall i | 0 <= i < |r|
      ensures r[i] != c
    {
      assert r[i] == t[i] == s[k + i];
    }
  }

  lemma {:induction false} CleanKeepsSeparatorOut(pieces: seq<string>, sep: char)
    requires forall k :: 0 <= k < |pieces| ==> sep !in pieces[k]
    ensures forall k :: 0 <= k < |Clean(pieces)| ==> sep !in Clean(pieces)[k]
  {
    if |pieces| > 0 {
      TrimIsInfix(pieces[0], sep);
      CleanKeepsSeparatorOut(pieces[1..], sep);
    }
  }

  /** White space in front of an already trimmed string is all `trim` removes. */
  lemma {:induction false} TrimAfterPadding(pad: string, x: string)
    requires AllWhitespace(pad) && Trimmed(x)
    ensures Trim(pad + x) == x
  {
    TrimStartOfPadding(pad, x);
    assert TrimStart(pad + x) == x;
  }

  lemma {:induction false} TrimStartOfPadding(pad: string, x: string)
    requires AllWhitespace(pad) && Trimmed(x)
    ensures TrimStart(pad + x) == x
  {
    if |pad| > 0 {
      assert (pad + x)[1..] == pad[1..] + x;
      TrimStartOfPadding(pad[1..], x);
    } else {
      assert pad + x == x;
    }
  }

  /** A separator-free prefix glues onto the first piece. */
  lemma {:induction false} SplitFreePrefix(p: string, y: string, sep: char)
    requires sep !in p
    ensures Split(p + y, sep) == [p + Split(y, sep)[0]] + Split(y, sep)[1..]
  {
    if |p| > 0 {
      assert (p + y)[1..] == p[1..] + y;
      SplitFreePrefix(p[1..], y, sep);
      assert [p[0]] + (p[1..] + Split(y, sep)[0]) == p + Split(y, sep)[0];
    } else {
      assert p + y == y && p + Split(y, sep)[0] == Split(y, sep)[0];
    }
  }

  lemma SplitAtSeparator(a: string, b: string, sep: char)
    requires sep !in a
    ensures Split(a + [sep] + b, sep) == [a] + Split(b, sep)
  {
    assert a + [sep] + b == a + ([sep] + b);
    SplitFreePrefix(a, [sep] + b, sep);
    assert ([sep] + b)[0] == sep && ([sep] + b)[1..] == b;
    assert Split([sep] + b, sep) == [""] + Split(b, sep);
    assert a + "" == a;
  }

  lemma SplitWithoutSeparator(a: string, sep: char)
    requires sep !in a
    ensures Split(a, sep) == [a]
  {
    SplitFreePrefix(a, "", sep);
    assert a + "" == a;
  }

  /** A separator-free tail after the last separator becomes the last piece. */
  lemma {:induction false} SplitAtLastSeparator(a: string, w: string, sep: char)
    requires sep !in w
    ensures Split(a + [sep] + w, sep) == Split(a, sep) + [w]
  {
    if |a| == 0 {
      assert a + [sep] + w == [sep] + w;
      assert ([sep] + w)[1..] == w;
      SplitWithoutSeparator(w, sep);
    } else {
      assert (a + [sep] + w)[0] == a[0];
      assert (a + [sep] + w)[1..] == a[1..] + [sep] + w;
      SplitAtLastSeparator(a[1..], w, sep);
    }
  }

  /** Joining separator-free pieces and splitting again gives the pieces back. */
  lemma {:induction false} SplitJoin(parts: seq<string>, sep: char)
    requires |parts| > 0
    requires forall k :: 0 <= k < |parts| ==> sep !in parts[k]
    ensures Split(Join(parts, [sep]), sep) == parts
  {
    if |parts| == 1 {
      SplitWithoutSeparator(parts[0], sep);
    } else {
      SplitJoin(parts[1..], sep);
      SplitAtSeparator(parts[0], Join(parts[1..], [sep]), sep);
    }
  }

  /** Splitting and joining back with the same separator restores the string. */
  lemma {:induction false} JoinSplit(s: string, sep: char)
    ensures Join(Split(s, sep), [sep]) == s
  {
    if |s| > 0 {
      JoinSplit(s[1..], sep);
      var rest := Split(s[1..], sep);
      if s[0] != sep {
        if |rest| > 1 {
          assert Join(rest, [sep]) == rest[0] + [sep] + Join(rest[1..], [sep]);
        }
      }
    }
  }

  /**
   * The round trip of a list edited as text: entries that are non-empty,
   * trimmed and free of the separator survive `join(sep + pad)` followed by
   * `split(sep)`, trim and dropping empties, whatever white space `lead`
   * stands in front.
   */
  lemma {:induction false} ParseJoinedList(entries: seq<string>, sep: char, pad: string, lead: string)
    requires forall k :: 0 <= k < |entries| ==> entries[k] != "" && Trimmed(entries[k]) && sep !in entries[k]
    requires AllWhitespace(pad) && sep !in pad
    requires AllWhitespace(lead) && sep !in lead
    ensures Clean(Split(lead + Join(entries, [sep] + pad), sep)) == entries
  {
    if |entries| == 0 {
      assert lead + "" == lead;
      SplitWithoutSeparator(lead, sep);
      TrimAfterPadding(lead, "");
      assert lead + "" == lead;
      assert Clean([lead]) == [];
    } else if |entries| == 1 {
      SplitWithoutSeparator(lead + entries[0], sep);
      TrimAfterPadding(lead, entries[0]);
      assert Clean([lead + entries[0]]) == [entries[0]];
    } else {
      var x := entries[0];
      var tail := Join(entries[1..], [sep] + pad);
      JoinedHead(entries, [sep] + pad);
      assert lead + Join(entries, [sep] + pad) == (lead + x) + [sep] + (pad + tail);
      ParseJoinedStep(lead, x, pad + tail, sep);
      ParseJoinedList(entries[1..], sep, pad, pad);
    }
  }

  lemma JoinedHead(entries: seq<string>, d: string)
    requires |entries| > 1
    ensures Join(entries, d) == entries[0] + d + Join(entries[1..], d)
  {
  }

  lemma ParseJoinedStep(lead: string, x: string, rest: string, sep: char)
    requires AllWhitespace(lead) && sep !in lead
    requires x != "" && Trimmed(x) && sep !in x
    ensures Clean(Split((lead + x) + [sep] + rest, sep)) == [x] + Clean(Split(rest, sep))
  {
    SplitAtSeparator(lead + x, rest, sep);
    TrimAfterPadding(lead, x);
    var pieces := [lead + x] + Split(rest, sep);
    assert pieces[1..] == Split(rest, sep);
  }

  /** `pat` occurs in `s` starting at position `i`. */
  predicate OccursAt(s: string, pat: string, i: int) {
    0 <= i && i + |pat| <= |s| && s[i..i + |pat|] == pat
  }

  /** `s.indexOf(pat)`: the first position where `pat` occurs, or -1. */
  function IndexOf(s: string, pat: string): (r: int)
    ensures r == -1 || OccursAt(s, pat, r)
    ensures forall i :: (r == -1 || i < r) ==> !OccursAt(s, pat, i)
  {
    IndexFrom(s, pat, 0)
  }

  function IndexFrom(s: string, pat: string, from: nat): (r: int)
    requires from <= |s| + 1
    ensures r == -1 || (from <= r && OccursAt(s, pat, r))
    ensures forall i :: from <= i && (r == -1 || i < r) ==> !OccursAt(s, pat, i)
    decreases |s| + 1 - from
  {
    if from + |pat| > |s| then -1
    else if OccursAt(s, pat, from) then from
    else IndexFrom(s, pat, from + 1)
  }

  /** `s.slice(0, end)`: a negative `end` counts back from the end, and the result is clamped to `s`. */
  function SliceTo(s: string, end: int): (r: string)
    ensures r <= s
    ensures |r| == if end < 0 then (if |s| + end < 0 then 0 else |s| + end)
                   else (if end < |s| then end else |s|)
  {
    if end < 0 then (if |s| + end < 0 then "" else s[..|s| + end])
    else if end < |s| then s[..end] else s
  }

  /** `a || b` on strings: the empty string counts as missing. */
  function Or(a: string, b: string): string {
    if a == "" then b else a
  }

  /** `toUpperCase` on ASCII letters; every other character is left alone. */
  function UpperChar(c: char): char {
    if 'a' <= c <= 'z' then (c as int - 'a' as int + 'A' as int) as char else c
  }

  function Upper(s: string): (r: string)
    ensures |r| == |s|
    ensures forall i :: 0 <= i < |s| ==> r[i] == UpperChar(s[i])
  {
    seq(|s|, i requires 0 <= i < |s| => UpperChar(s[i]))
  }

  function DigitChar(d: nat): char
    requires d < 10
  {
    ('0' as int + d) as char
  }

  /** `n.toString()` for a whole number of milliseconds. */
  function NatToString(n: nat): (r: string)
    ensures |r| >= 1
    ensures forall i :: 0 <= i < |r| ==> '0' <= r[i] <= '9'
  {
    if n < 10 then [DigitChar(n)] else NatToString(n / 10) + [DigitChar(n % 10)]
  }
}
