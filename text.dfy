/**
 * The Python string operations the keyword code relies on, over `string` (a sequence of
 * Unicode scalar values, which is what Python's `len` counts). Unicode-wide character classes
 * are narrowed to the alphabets the system works with: ASCII and the Cyrillic block.
 */
module Text {

  /** `str.isspace()` / regex `\s` for ASCII whitespace. */
  predicate IsSpace(c: char) {
    c == ' ' || c == '\t' || c == '\n' || c == '\r' || c == '\U{000B}' || c == '\U{000C}'
  }

  /** Regex `\w`: letters, digits and the underscore (ASCII and Cyrillic). */
  predicate IsWordChar(c: char) {
    ('a' <= c <= 'z') || ('A' <= c <= 'Z') || ('0' <= c <= '9') || c == '_'
    || ('\U{0400}' <= c <= '\U{04FF}')
  }

  /** A letter of the class `[а-яё]` under `re.IGNORECASE`. */
  predicate IsCyrillicLetter(c: char) {
    ('а' <= c <= 'я') || c == 'ё' || ('А' <= c <= 'Я') || c == 'Ё'
  }

  /** `re.search(r'[а-яё]', s, re.IGNORECASE)` succeeds. */
  predicate HasCyrillic(s: string) {
    exists i :: 0 <= i < |s| && IsCyrillicLetter(s[i])
  }

  predicate NoSpace(s: string) {
    forall i :: 0 <= i < |s| ==> !IsSpace(s[i])
  }

  /** `str.lower()` on one character: ASCII and Cyrillic capitals map to their small letters. */
  function LowerChar(c: char): (d: char)
    ensures IsSpace(d) <==> IsSpace(c)
    ensures IsCyrillicLetter(d) <==> IsCyrillicLetter(c)
    ensures IsWordChar(d) <==> IsWordChar(c)
  {
    if 'A' <= c <= 'Z' then (c as int + 32) as char
    else if 'А' <= c <= 'Я' then (c as int + 32) as char
    else if '\U{0400}' <= c <= '\U{040F}' then (c as int + 80) as char
    else c
  }

  /** `str.lower()`. */
  function Lower(s: string): (r: string)
    ensures |r| == |s|
    ensures forall i :: 0 <= i < |s| ==> r[i] == LowerChar(s[i])
  {
    seq(|s|, i requires 0 <= i < |s| => LowerChar(s[i]))
  }

  /**
   * `re.sub(r'[^\w\s<extra>]', ' ', s)`: every character that is not a word character, not
   * whitespace and not one of `extra` becomes a space.
   */
  function Clean(s: string, extra: set<char>): (r: string)
    ensures |r| == |s|
    ensures forall i :: 0 <= i < |s| ==>
      r[i] == (if IsWordChar(s[i]) || IsSpace(s[i]) || s[i] in extra then s[i] else ' ')
  {
    seq(|s|, i requires 0 <= i < |s| =>
      if IsWordChar(s[i]) || IsSpace(s[i]) || s[i] in extra then s[i] else ' ')
  }

  /** The longest prefix of s that holds no whitespace. */
  function LeadingWord(s: string): (w: string)
    ensures w <= s && NoSpace(w)
    ensures |w| < |s| ==> IsSpace(s[|w|])
    decreases |s|
  {
    if s == [] || IsSpace(s[0]) then [] else [s[0]] + LeadingWord(s[1..])
  }

  /** `str.split()` with no separator: the maximal runs of non-whitespace characters. */
  function SplitWs(s: string): (r: seq<string>)
    ensures forall i :: 0 <= i < |r| ==> r[i] != [] && NoSpace(r[i])
    decreases |s|
  {
    if s == [] then []
    else if IsSpace(s[0]) then SplitWs(s[1..])
    else
      var w := LeadingWord(s);
      [w] + SplitWs(s[|w|..])
  }

  /** `str.split(sep)` with a one-character separator: empty pieces are kept. */
  function SplitOn(s: string, sep: char): (r: seq<string>)
    ensures |r| >= 1
    ensures forall i :: 0 <= i < |r| ==> sep !in r[i]
    decreases |s|
  {
    if s == [] then [""]
    else
      var rest := SplitOn(s[1..], sep);
      if s[0] == sep then [""] + rest else [[s[0]] + rest[0]] + rest[1..]
  }

  /** `sep.join(parts)` with a one-character separator. */
  function JoinWith(parts: seq<string>, sep: char): string
    decreases |parts|
  {
    if parts == [] then ""
    else if |parts| == 1 then parts[0]
    else parts[0] + [sep] + JoinWith(parts[1..], sep)
  }

  /** Joining the pieces of a split with the same separator gives back the original string. */
  lemma {:induction false} JoinSplitOn(s: string, sep: char)
    ensures JoinWith(SplitOn(s, sep), sep) == s
    decreases |s|
  {
    if s != [] {
      var rest := SplitOn(s[1..], sep);
      JoinSplitOn(s[1..], sep);
      if s[0] == sep {
        assert ([""] + rest)[1..] == rest;
      } else {
        var r := [[s[0]] + rest[0]] + rest[1..];
        if |rest| == 1 {
          assert rest == [rest[0]];
        } else {
          assert r[1..] == rest[1..];
          assert JoinWith(rest, sep) == rest[0] + [sep] + JoinWith(rest[1..], sep);
        }
      }
    }
  }

  function TrimStart(s: string): (r: string)
    ensures r == [] || !IsSpace(r[0])
    ensures |r| <= |s| && r == s[|s| - |r|..]
    decreases |s|
  {
    if s != [] && IsSpace(s[0]) then TrimStart(s[1..]) else s
  }

  function TrimEnd(s: string): (r: string)
    ensures r == [] || !IsSpace(r[|r| - 1])
    ensures r <= s
    decreases |s|
  {
    if s != [] && IsSpace(s[|s| - 1]) then TrimEnd(s[..|s| - 1]) else s
  }

  /** `str.strip()`: drops leading and trailing whitespace. */
  function Strip(s: string): (r: string)
    ensures r == [] || (!IsSpace(r[0]) && !IsSpace(r[|r| - 1]))
    ensures |r| <= |s|
  {
    TrimEnd(TrimStart(s))
  }

  /** Python's `p in s` for strings: p occurs in s as a contiguous piece. */
  predicate IsSubstring(p: string, s: string)
    decreases |s|
  {
    p <= s || (s != [] && IsSubstring(p, s[1..]))
  }

  /** The number of words `len(s.split())`. */
  function WordCount(s: string): nat {
    |SplitWs(s)|
  }

  /** A word followed by whitespace (or nothing) is the leading word. */
  lemma {:induction false} LeadingWordOf(w: string, tail: string)
    requires NoSpace(w)
    requires tail == [] || IsSpace(tail[0])
    ensures LeadingWord(w + tail) == w
    decreases |w|
  {
    if w != [] {
      assert (w + tail)[1..] == w[1..] + tail;
      LeadingWordOf(w[1..], tail);
    }
  }

  /** Splitting words joined by single spaces gives back those words. */
  lemma {:induction false} SplitWsJoin(ws: seq<string>)
    requires forall i :: 0 <= i < |ws| ==> ws[i] != [] && NoSpace(ws[i])
    ensures SplitWs(JoinWith(ws, ' ')) == ws
    decreases |ws|
  {
    if |ws| == 1 {
      LeadingWordOf(ws[0], []);
      assert ws[0] + [] == ws[0];
      assert ws[0][|ws[0]|..] == [];
    } else if |ws| > 1 {
      var rest := JoinWith(ws[1..], ' ');
      var s := ws[0] + [' '] + rest;
      LeadingWordOf(ws[0], [' '] + rest);
      assert s == ws[0] + ([' '] + rest);
      assert s[|ws[0]|..] == [' '] + rest;
      assert ([' '] + rest)[1..] == rest;
      SplitWsJoin(ws[1..]);
      assert ws == [ws[0]] + ws[1..];
    }
  }

  /** Joining one more part appends the separator and that part. */
  lemma {:induction false} JoinSnoc(parts: seq<string>, last: string, sep: char)
    requires parts != []
    ensures JoinWith(parts + [last], sep) == JoinWith(parts, sep) + [sep] + last
    decreases |parts|
  {
    if |parts| == 1 {
      assert (parts + [last])[1..] == [last];
    } else {
      assert (parts + [last])[1..] == parts[1..] + [last];
      JoinSnoc(parts[1..], last, sep);
    }
  }

  /** Extending the last part extends the joined string by the same text. */
  lemma {:induction false} JoinExtendLast(parts: seq<string>, last: string, more: string, sep: char)
    ensures JoinWith(parts + [last + more], sep) == JoinWith(parts + [last], sep) + more
    decreases |parts|
  {
    if parts == [] {
      assert parts + [last + more] == [last + more];
      assert parts + [last] == [last];
    } else {
      assert (parts + [last + more])[1..] == parts[1..] + [last + more];
      assert (parts + [last])[1..] == parts[1..] + [last];
      JoinExtendLast(parts[1..], last, more, sep);
    }
  }

  /** A string with no whitespace at either end, followed by a space, strips back to itself. */
  lemma StripPadded(t: string)
    requires t != [] && !IsSpace(t[0]) && !IsSpace(t[|t| - 1])
    ensures Strip(t + " ") == t
  {
    var padded := t + " ";
    assert TrimStart(padded) == padded;
    assert padded[..|padded| - 1] == t;
    assert TrimEnd(t) == t;
    assert TrimEnd(padded) == TrimEnd(t);
  }
}
