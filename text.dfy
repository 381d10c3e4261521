/** The Python string built-ins the generator relies on, stated over
    `seq<char>`: `str.strip()`, `str.lower()`, `str.split(sep)`,
    `sep.join(...)`, `"".join(...)` and single-character `str.replace`. */
module Text {

  /** The characters for which Python's `str.isspace()` holds; `str.strip()`
      with no argument removes exactly these from both ends. */
  predicate IsSpace(c: char) {
    c == ' ' || '\t' <= c <= '\r' || '\U{1C}' <= c <= '\U{1F}' || c == '\U{85}'
    || c == '\U{A0}' || c == '\U{1680}' || '\U{2000}' <= c <= '\U{200A}'
    || c == '\U{2028}' || c == '\U{2029}' || c == '\U{202F}' || c == '\U{205F}'
    || c == '\U{3000}'
  }

  /** Every character of `s` is white space (the empty string included). */
  predicate Blank(s: string) {
    forall i :: 0 <= i < |s| ==> IsSpace(s[i])
  }

  /** `s` without its longest prefix of characters satisfying `p`. */
  function TrimStart(s: string, p: char -> bool): (r: string)
    ensures |r| <= |s| && r == s[|s| - |r|..]
    ensures r == "" || !p(r[0])
    ensures forall i :: 0 <= i < |s| - |r| ==> p(s[i])
  {
    if s != "" && p(s[0]) then TrimStart(s[1..], p) else s
  }

  /** `s` without its longest suffix of characters satisfying `p`. */
  function TrimEnd(s: string, p: char -> bool): (r: string)
    ensures |r| <= |s| && r == s[..|r|]
    ensures r == "" || !p(r[|r| - 1])
    ensures forall i :: |r| <= i < |s| ==> p(s[i])
  {
    if s != "" && p(s[|s| - 1]) then TrimEnd(s[..|s| - 1], p) else s
  }

  /** The number of white-space characters `s.strip()` removes at the front. */
  function LeadingSpace(s: string): nat {
    |s| - |TrimStart(s, IsSpace)|
  }

  /** Python's `s.strip()`: white space removed at both ends. */
  function Strip(s: string): string {
    TrimEnd(TrimStart(s, IsSpace), IsSpace)
  }

  /** What `s.strip()` leaves is the slice of `s` after its leading white
      space; it neither starts nor ends with white space, and all it removed
      is white space. */
  lemma StripShape(s: string)
    ensures var r := Strip(s);
      && (r == "" || (!IsSpace(r[0]) && !IsSpace(r[|r| - 1])))
      && LeadingSpace(s) + |r| <= |s|
      && r == s[LeadingSpace(s)..LeadingSpace(s) + |r|]
      && (forall i :: 0 <= i < LeadingSpace(s) ==> IsSpace(s[i]))
      && (forall i :: LeadingSpace(s) + |r| <= i < |s| ==> IsSpace(s[i]))
  {
    StripEnds(s);
    StripSlice(s);
    StripRemoved(s);
  }

  lemma StripEnds(s: string)
    ensures var r := Strip(s); r == "" || (!IsSpace(r[0]) && !IsSpace(r[|r| - 1]))
  {
    var t := TrimStart(s, IsSpace);
    var r := TrimEnd(t, IsSpace);
    assert r == t[..|r|];
    assert r != "" ==> r[0] == t[0];
  }

  lemma StripSlice(s: string)
    ensures LeadingSpace(s) + |Strip(s)| <= |s|
    ensures Strip(s) == s[LeadingSpace(s)..LeadingSpace(s) + |Strip(s)|]
  {
    var t := TrimStart(s, IsSpace);
    var r := TrimEnd(t, IsSpace);
    assert t == s[LeadingSpace(s)..];
    assert r == t[..|r|];
  }

  lemma StripRemoved(s: string)
    ensures forall i :: 0 <= i < LeadingSpace(s) ==> IsSpace(s[i])
    ensures forall i :: LeadingSpace(s) + |Strip(s)| <= i < |s| ==> IsSpace(s[i])
  {
    var t := TrimStart(s, IsSpace);
    var r := TrimEnd(t, IsSpace);
    assert t == s[LeadingSpace(s)..];
    assert forall i :: LeadingSpace(s) + |r| <= i < |s| ==> s[i] == t[i - LeadingSpace(s)];
  }

  /** `s.strip()` is empty exactly when `s` is blank. */
  lemma StripEmptyIffBlank(s: string)
    ensures Strip(s) == "" <==> Blank(s)
  {
    StripShape(s);
    if Strip(s) != "" {
      var r := Strip(s);
      assert s[LeadingSpace(s)] == r[0];
    }
  }

  /** Stripping twice is stripping once. */
  lemma StripIdempotent(s: string)
    ensures Strip(Strip(s)) == Strip(s)
  {
    StripShape(s);
    var r := Strip(s);
    if r != "" {
      assert TrimStart(r, IsSpace) == r;
      assert TrimEnd(r, IsSpace) == r;
    }
  }

  /** A string that neither starts nor ends with white space is its own
      strip. */
  lemma StripUnchanged(s: string)
    requires s != "" && !IsSpace(s[0]) && !IsSpace(s[|s| - 1])
    ensures Strip(s) == s
  {
    assert TrimStart(s, IsSpace) == s;
    assert TrimEnd(s, IsSpace) == s;
  }

  /** ASCII lower-casing of one character. Python's `str.lower()` also maps
      non-ASCII letters; only the ASCII mapping matters for the
      `true`/`1`/`yes` test, since no other character lowers into one of
      those words. */
  function LowerChar(c: char): char {
    if 'A' <= c <= 'Z' then (c as int + 32) as char else c
  }

  /** Python's `s.lower()`, restricted to the ASCII letters. */
  function Lower(s: string): (r: string)
    ensures |r| == |s|
    ensures forall i :: 0 <= i < |s| ==> r[i] == LowerChar(s[i])
  {
    if s == "" then "" else [LowerChar(s[0])] + Lower(s[1..])
  }

  /** Number of occurrences of `c` in `s`. */
  function Count(c: char, s: string): nat {
    if s == "" then 0 else (if s[0] == c then 1 else 0) + Count(c, s[1..])
  }

  lemma {:induction false} CountZero(c: char, s: string)
    ensures Count(c, s) == 0 <==> c !in s
  {
    if s != "" {
      CountZero(c, s[1..]);
      assert s == [s[0]] + s[1..];
    }
  }

  /** Python's `s.split(sep)` for a one-character separator: the pieces
      between separators, never fewer than one, none containing `sep`. */
  function Split(s: string, sep: char): (r: seq<string>)
    ensures |r| >= 1
    ensures forall i :: 0 <= i < |r| ==> sep !in r[i]
  {
    if s == "" then [""]
    else
      var tail := Split(s[1..], sep);
      if s[0] == sep then [""] + tail else [[s[0]] + tail[0]] + tail[1..]
  }

  /** Python's `sep.join(pieces)` for a one-character separator. */
  function Join(pieces: seq<string>, sep: char): string {
    if |pieces| == 0 then ""
    else if |pieces| == 1 then pieces[0]
    else pieces[0] + [sep] + Join(pieces[1..], sep)
  }

  /** Splitting and joining again gives back the original string. */
  lemma {:induction false} JoinSplit(s: string, sep: char)
    ensures Join(Split(s, sep), sep) == s
  {
    if s != "" {
      JoinSplit(s[1..], sep);
      var tail := Split(s[1..], sep);
      if s[0] != sep {
        if |tail| > 1 {
          assert ([[s[0]] + tail[0]] + tail[1..])[1..] == tail[1..];
        }
      }
    }
  }

  /** Joining separator-free pieces and splitting again gives back the pieces. */
  lemma {:induction false} SplitJoin(pieces: seq<string>, sep: char)
    requires |pieces| >= 1
    requires forall i :: 0 <= i < |pieces| ==> sep !in pieces[i]
    ensures Split(Join(pieces, sep), sep) == pieces
  {
    if |pieces| == 1 {
      SplitNoSep(pieces[0], sep);
    } else {
      SplitJoin(pieces[1..], sep);
      SplitPrefix(pieces[0], Join(pieces[1..], sep), sep);
      assert pieces == [pieces[0]] + pieces[1..];
    }
  }

  lemma {:induction false} SplitNoSep(s: string, sep: char)
    requires sep !in s
    ensures Split(s, sep) == [s]
  {
    if s != "" {
      SplitNoSep(s[1..], sep);
      assert s == [s[0]] + s[1..];
    }
  }

  lemma {:induction false} SplitPrefix(p: string, rest: string, sep: char)
    requires sep !in p
    ensures Split(p + [sep] + rest, sep) == [p] + Split(rest, sep)
  {
    if p == "" {
      assert p + [sep] + rest == [sep] + rest;
      assert ([sep] + rest)[1..] == rest;
    } else {
      assert (p + [sep] + rest)[1..] == p[1..] + [sep] + rest;
      SplitPrefix(p[1..], rest, sep);
      assert [p[0]] + p[1..] == p;
    }
  }

  /** There is one more piece than there are separators. */
  lemma {:induction false} SplitLength(s: string, sep: char)
    ensures |Split(s, sep)| == Count(sep, s) + 1
  {
    if s != "" {
      SplitLength(s[1..], sep);
    }
  }

  /** Python's `"".join(parts)`. */
  function Concat(parts: seq<string>): string {
    if parts == [] then "" else Concat(parts[..|parts| - 1]) + parts[|parts| - 1]
  }

  lemma {:induction false} ConcatAppend(a: seq<string>, b: seq<string>)
    ensures Concat(a + b) == Concat(a) + Concat(b)
  {
    if b == [] {
      assert a + b == a;
    } else {
      assert (a + b)[..|a + b| - 1] == a + b[..|b| - 1];
      ConcatAppend(a, b[..|b| - 1]);
    }
  }

  /** Python's `s.replace(c, rep)` for a one-character pattern `c`. */
  function ReplaceChar(s: string, c: char, rep: string): string {
    if s == "" then ""
    else (if s[0] == c then rep else [s[0]]) + ReplaceChar(s[1..], c, rep)
  }

  /** Each occurrence of the pattern grows (or shrinks) the text by `|rep| - 1`. */
  lemma {:induction false} ReplaceCharLength(s: string, c: char, rep: string)
    ensures |ReplaceChar(s, c, rep)| == |s| + Count(c, s) * (|rep| - 1)
  {
    if s != "" {
      ReplaceCharLength(s[1..], c, rep);
    }
  }

  /** A text without the pattern is left as it is. */
  lemma {:induction false} ReplaceCharAbsent(s: string, c: char, rep: string)
    requires c !in s
    ensures ReplaceChar(s, c, rep) == s
  {
    if s != "" {
      ReplaceCharAbsent(s[1..], c, rep);
      assert s == [s[0]] + s[1..];
    }
  }

  lemma {:induction false} ReplaceCharAppend(a: string, b: string, c: char, rep: string)
    ensures ReplaceChar(a + b, c, rep) == ReplaceChar(a, c, rep) + ReplaceChar(b, c, rep)
  {
    if a == "" {
      assert a + b == b;
    } else {
      assert (a + b)[1..] == a[1..] + b;
      ReplaceCharAppend(a[1..], b, c, rep);
    }
  }

  /** The result of a replacement holds no bare pattern character unless `rep` does. */
  lemma {:induction false} ReplaceCharRemoves(s: string, c: char, rep: string)
    requires c !in rep
    ensures c !in ReplaceChar(s, c, rep)
  {
    if s != "" {
      ReplaceCharRemoves(s[1..], c, rep);
    }
  }

  /** A replacement introduces no character that neither the text nor `rep`
      holds. */
  lemma {:induction false} ReplaceCharKeepsAbsent(s: string, c: char, rep: string, d: char)
    requires d !in s && d !in rep
    ensures d !in ReplaceChar(s, c, rep)
  {
    if s != "" {
      ReplaceCharKeepsAbsent(s[1..], c, rep, d);
    }
  }
}
