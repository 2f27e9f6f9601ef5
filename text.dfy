/**
 * The Python string operations the core relies on: find, rfind, split on one
 * character, join and strip().
 */
module Text {
  import opened Wrappers

  /** Position of the first `c` in `s` (Python's `s.find(c)`, with None for -1). */
  function IndexOf(s: string, c: char): (r: Option<nat>)
    ensures r.None? <==> c !in s
    ensures r.Some? ==> r.value < |s| && s[r.value] == c && c !in s[..r.value]
  {
    if s == [] then None
    else if s[0] == c then Some(0)
    else match IndexOf(s[1..], c)
      case None => None
      case Some(i) =>
        assert s[..i + 1] == [s[0]] + s[1..][..i];
        Some(i + 1)
  }

  /** The first occurrence is the only index its contract allows. */
  lemma IndexOfIsFirst(s: string, c: char, i: nat)
    requires i < |s| && s[i] == c && c !in s[..i]
    ensures IndexOf(s, c) == Some(i)
  {
  }

  /** Position of the last `c` in `s` (Python's `s.rfind(c)`, with None for -1). */
  function LastIndexOf(s: string, c: char): (r: Option<nat>)
    ensures r.None? <==> c !in s
    ensures r.Some? ==> r.value < |s| && s[r.value] == c && c !in s[r.value + 1..]
  {
    if s == [] then None
    else if s[|s| - 1] == c then Some(|s| - 1)
    else
      var r := LastIndexOf(s[..|s| - 1], c);
      assert s == s[..|s| - 1] + [s[|s| - 1]];
      r
  }

  /** `sep.join(parts)`. */
  function Join(sep: string, parts: seq<string>): string
  {
    if |parts| == 0 then ""
    else if |parts| == 1 then parts[0]
    else parts[0] + sep + Join(sep, parts[1..])
  }

  /** `s.split(sep)` for a one-character separator: the pieces between separators, empty ones included. */
  function Split(s: string, sep: char): (r: seq<string>)
    ensures |r| >= 1
    ensures forall i :: 0 <= i < |r| ==> sep !in r[i]
    ensures Join([sep], r) == s
    decreases |s|
  {
    match IndexOf(s, sep)
    case None => [s]
    case Some(i) =>
      var rest := Split(s[i + 1..], sep);
      assert s == s[..i] + [sep] + s[i + 1..];
      [s[..i]] + rest
  }

  /** A separator placed between `a` and `b` splits exactly there when `a` holds no separator. */
  lemma {:induction false} SplitAfterPlainPiece(a: string, sep: char, b: string)
    requires sep !in a
    ensures Split(a + [sep] + b, sep) == [a] + Split(b, sep)
  {
    var s := a + [sep] + b;
    assert s[|a|] == sep;
    assert s[..|a|] == a;
    assert s[|a| + 1..] == b;
  }

  /** The characters Python's `str.strip()` removes (those for which `str.isspace()` holds). */
  predicate IsSpace(c: char)
  {
    ('\U{0009}' <= c <= '\U{000D}') || ('\U{001C}' <= c <= '\U{0020}')
    || c == '\U{0085}' || c == '\U{00A0}' || c == '\U{1680}'
    || ('\U{2000}' <= c <= '\U{200A}') || c == '\U{2028}' || c == '\U{2029}'
    || c == '\U{202F}' || c == '\U{205F}' || c == '\U{3000}'
  }

  /** `s.lstrip()`: a suffix of `s` after leading whitespace only. */
  function TrimStart(s: string): (r: string)
    ensures |r| <= |s|
    ensures r != [] ==> !IsSpace(r[0])
  {
    if s != [] && IsSpace(s[0]) then TrimStart(s[1..]) else s
  }

  /** `lstrip()` removes only leading whitespace: what it keeps is a suffix, and what it drops is whitespace. */
  lemma {:induction false} TrimStartRemovesSpace(s: string)
    ensures TrimStart(s) == s[|s| - |TrimStart(s)|..]
    ensures forall i :: 0 <= i < |s| - |TrimStart(s)| ==> IsSpace(s[i])
  {
    if s != [] && IsSpace(s[0]) {
      TrimStartRemovesSpace(s[1..]);
      assert forall i :: 1 <= i < |s| - |TrimStart(s)| ==> s[i] == s[1..][i - 1];
    }
  }

  /** `s.rstrip()`: a prefix of `s` before trailing whitespace only. */
  function TrimEnd(s: string): (r: string)
    ensures |r| <= |s|
    ensures r != [] ==> !IsSpace(r[|r| - 1])
  {
    if s != [] && IsSpace(s[|s| - 1]) then TrimEnd(s[..|s| - 1]) else s
  }

  /** `rstrip()` removes only trailing whitespace: what it keeps is a prefix, and what it drops is whitespace. */
  lemma {:induction false} TrimEndRemovesSpace(s: string)
    ensures TrimEnd(s) == s[..|TrimEnd(s)|]
    ensures forall i :: |TrimEnd(s)| <= i < |s| ==> IsSpace(s[i])
  {
    if s != [] && IsSpace(s[|s| - 1]) {
      TrimEndRemovesSpace(s[..|s| - 1]);
    }
  }

  /** `s.strip()`. */
  function Strip(s: string): string
  {
    TrimEnd(TrimStart(s))
  }

  /** `strip()` leaves no whitespace at either end, and leaves nothing exactly when there was only whitespace. */
  lemma StripTrimsBothEnds(s: string)
    ensures var r := Strip(s);
      (r != [] ==> !IsSpace(r[0]) && !IsSpace(r[|r| - 1]))
      && ((forall i :: 0 <= i < |s| ==> IsSpace(s[i])) <==> r == [])
  {
    var t := TrimStart(s);
    var r := TrimEnd(t);
    TrimStartRemovesSpace(s);
    TrimEndRemovesSpace(t);
    assert r != [] ==> r[0] == t[0];
    assert t != [] ==> t[0] == s[|s| - |t|];
  }

  /** Trailing whitespace after a part that ends in a visible character never eats into that part. */
  lemma {:induction false} TrimEndAfterVisible(a: string, b: string)
    requires a != [] && !IsSpace(a[|a| - 1])
    ensures TrimEnd(a + b) == a + TrimEnd(b)
    decreases |b|
  {
    if b != [] && IsSpace(b[|b| - 1]) {
      assert (a + b)[..|a + b| - 1] == a + b[..|b| - 1];
      TrimEndAfterVisible(a, b[..|b| - 1]);
    } else if b == [] {
      assert a + b == a;
    }
  }

  /** Stripping text whose head is visible at both of its ends only trims the end of what follows. */
  lemma StripAfterVisibleHead(head: string, rest: string)
    requires head != [] && !IsSpace(head[0]) && !IsSpace(head[|head| - 1])
    ensures Strip(head + rest) == head + TrimEnd(rest)
  {
    assert TrimStart(head + rest) == head + rest;
    TrimEndAfterVisible(head, rest);
  }

  /** `"\n".join(lines).strip() + "\n"`. */
  function JoinedText(lines: seq<string>): string
  {
    Strip(Join("\n", lines)) + "\n"
  }

  /** A visible head, then a tail ending in a visible character, then one newline. */
  lemma LineShape(text: string, head: string, tail: string)
    requires text == head + tail + "\n"
    requires head != [] && !IsSpace(head[|head| - 1])
    requires tail != [] ==> !IsSpace(tail[|tail| - 1])
    ensures |text| > |head| && text[..|head|] == head && text[|text| - 1] == '\n' && !IsSpace(text[|text| - 2])
    ensures text[|head|] == if tail == [] then '\n' else tail[0]
  {
    assert text[..|head|] == head;
    assert text[|text| - 2] == if tail == [] then head[|head| - 1] else tail[|tail| - 1];
  }

  /** The text opens with `head` as a line of its own. */
  predicate OpensWithLine(text: string, head: string)
  {
    |text| > |head| && text[..|head|] == head && text[|head|] == '\n'
  }

  /** The text ends in exactly one newline, right after a visible character. */
  predicate EndsInOneNewline(text: string)
  {
    |text| >= 2 && text[|text| - 1] == '\n' && !IsSpace(text[|text| - 2])
  }

  /**
   * Lines whose first is visible at both ends join and strip to text that
   * starts with that line, on a line of its own, and ends in one newline
   * right after a visible character.
   */
  lemma JoinedTextShape(text: string, head: string, lines: seq<string>)
    requires text == JoinedText(lines)
    requires lines != [] && lines[0] == head
    requires head != [] && !IsSpace(head[0]) && !IsSpace(head[|head| - 1])
    ensures OpensWithLine(text, head) && EndsInOneNewline(text)
  {
    var rest := if |lines| == 1 then "" else "\n" + Join("\n", lines[1..]);
    assert Join("\n", lines) == head + rest;
    StripAfterVisibleHead(head, rest);
    TrimEndRemovesSpace(rest);
    var tail := TrimEnd(rest);
    assert tail != [] ==> tail[0] == rest[0] == '\n';
    LineShape(text, head, tail);
  }
}
