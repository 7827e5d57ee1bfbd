/** Character and string helpers shared by the menu page and the AI assistant:
    the whitespace class that JavaScript's `\s` and `String.prototype.trim` use,
    trimming, ASCII upper-casing, and `Array.prototype.join` with its inverse. */
module Text {

  /** The whitespace characters of the model: the ASCII ones JavaScript counts
      (space, tab, line feed, vertical tab, form feed, carriage return), the
      no-break space and the byte-order mark. */
  predicate IsWhitespace(c: char) {
    c == ' ' || c == '\t' || c == '\n' || c == '\r' || c == '\U{000B}' || c == '\U{000C}'
    || c == '\U{00A0}' || c == '\U{FEFF}'
  }

  predicate NoWhitespace(s: string) {
    forall i :: 0 <= i < |s| ==> !IsWhitespace(s[i])
  }

  predicate AllWhitespace(s: string) {
    forall i :: 0 <= i < |s| ==> IsWhitespace(s[i])
  }

  /** Drops trailing whitespace. */
  function TrimEnd(s: string): string {
    if s != [] && IsWhitespace(s[|s| - 1]) then TrimEnd(s[..|s| - 1]) else s
  }

  /** Drops leading whitespace. */
  function TrimStart(s: string): string {
    if s != [] && IsWhitespace(s[0]) then TrimStart(s[1..]) else s
  }

  /** `String.prototype.trim`: whitespace removed at both ends. */
  function Trim(s: string): string {
    TrimEnd(TrimStart(s))
  }

  /** What `TrimEnd` keeps is a prefix of its input, what it drops is all
      whitespace, and what it keeps does not end in whitespace. */
  lemma {:induction false} TrimEndShape(s: string)
    ensures var r := TrimEnd(s);
            r <= s && AllWhitespace(s[|r|..]) && (r == [] || !IsWhitespace(r[|r| - 1]))
    decreases |s|
  {
    if s != [] && IsWhitespace(s[|s| - 1]) {
      var init := s[..|s| - 1];
      TrimEndShape(init);
      var r := TrimEnd(init);
      assert s[|r|..] == init[|r|..] + [s[|s| - 1]];
    }
  }

  /** What `TrimStart` keeps is a suffix of its input, what it drops is all
      whitespace, and what it keeps does not start with whitespace. */
  lemma {:induction false} TrimStartShape(s: string)
    ensures var r := TrimStart(s);
            |r| <= |s| && r == s[|s| - |r|..] && AllWhitespace(s[..|s| - |r|])
            && (r == [] || !IsWhitespace(r[0]))
    decreases |s|
  {
    if s != [] && IsWhitespace(s[0]) {
      TrimStartShape(s[1..]);
      var r := TrimStart(s[1..]);
      assert s[..|s| - |r|] == [s[0]] + s[1..][..|s[1..]| - |r|];
    }
  }

  /** `Trim` leaves no whitespace at either end, and on text that does not start
      with whitespace it only trims the end. */
  lemma TrimShape(s: string)
    ensures var r := Trim(s);
            |r| <= |s| && (r == [] || (!IsWhitespace(r[0]) && !IsWhitespace(r[|r| - 1])))
    ensures s == [] || !IsWhitespace(s[0]) ==> Trim(s) == TrimEnd(s)
  {
    var t := TrimStart(s);
    TrimStartShape(s);
    TrimEndShape(t);
    var r := TrimEnd(t);
    if r != [] {
      assert r[0] == t[0];
    }
  }

  /** Whether s starts with t, character by character. The page does not
      call `startsWith`; this states prefixes of the prompt. */
  predicate StartsWith(s: string, t: string)
    decreases |t|
  {
    t == [] || (s != [] && s[0] == t[0] && StartsWith(s[1..], t[1..]))
  }

  /** Starting with t is being a prefix. */
  lemma {:induction false} StartsWithIsPrefix(s: string, t: string)
    ensures StartsWith(s, t) <==> t <= s
  {
    if t != [] && s != [] {
      StartsWithIsPrefix(s[1..], t[1..]);
      if t <= s {
        assert t[1..] <= s[1..];
      }
    }
  }

  /** Whether s ends with t. The page does not call `endsWith`; this states
      the ending of the prompt. */
  predicate EndsWith(s: string, t: string) {
    |t| <= |s| && s[|s| - |t|..] == t
  }

  /** Trimming the end of a text that ends in one space after a
      non-whitespace character removes exactly that space. */
  lemma TrimEndDropsSpace(b: string)
    requires b != [] && !IsWhitespace(b[|b| - 1])
    ensures TrimEnd(b + " ") == b
  {
  }

  /** Trimming the end never cuts into a prefix that ends in a non-whitespace
      character. */
  lemma {:induction false} TrimEndKeepsPrefix(p: string, s: string)
    requires p <= s && p != [] && !IsWhitespace(p[|p| - 1])
    ensures p <= TrimEnd(s)
    decreases |s|
  {
    if s != [] && IsWhitespace(s[|s| - 1]) {
      assert |p| < |s|;
      assert p <= s[..|s| - 1];
      TrimEndKeepsPrefix(p, s[..|s| - 1]);
    }
  }

  /** Trimming a string that already has no whitespace at either end changes
      nothing, so trimming twice is trimming once. */
  lemma TrimIdempotent(s: string)
    ensures Trim(Trim(s)) == Trim(s)
  {
    var t := Trim(s);
    TrimShape(s);
    if t != [] {
      assert TrimStart(t) == t;
      assert TrimEnd(t) == t;
    }
  }

  /** ASCII upper-casing of one character; every other character is kept. */
  function ToUpperAscii(c: char): (r: char)
    ensures !('a' <= r <= 'z')
    ensures 'a' <= c <= 'z' ==> r as int == c as int - 32
    ensures !('a' <= c <= 'z') ==> r == c
  {
    if 'a' <= c <= 'z' then (c as int - 32) as char else c
  }

  /** `key.charAt(0).toUpperCase() + key.slice(1)` with ASCII case mapping. */
  function Capitalize(key: string): string {
    if key == [] then [] else [ToUpperAscii(key[0])] + key[1..]
  }

  /** `Array.prototype.join(sep)` on strings. */
  function Join(xs: seq<string>, sep: string): string
  {
    if |xs| == 0 then ""
    else if |xs| == 1 then xs[0]
    else xs[0] + sep + Join(xs[1..], sep)
  }

  /** A character in no part and not in the separator is not in the join. */
  lemma {:induction false} JoinAvoids(xs: seq<string>, sep: string, c: char)
    requires c !in sep && forall x <- xs :: c !in x
    ensures c !in Join(xs, sep)
    decreases |xs|
  {
    if |xs| > 1 {
      assert forall x <- xs[1..] :: x in xs;
      JoinAvoids(xs[1..], sep, c);
      assert xs[0] in xs;
    } else if |xs| == 1 {
      assert xs[0] in xs;
    }
  }

  /** The inverse of `Join`: cuts `s` at every occurrence of `sep`, scanning from the left. */
  function SplitOn(s: string, sep: string): (parts: seq<string>)
    requires sep != []
    ensures |parts| >= 1
    decreases |s|
  {
    if |s| < |sep| then [s]
    else if s[..|sep|] == sep then [""] + SplitOn(s[|sep|..], sep)
    else
      var rest := SplitOn(s[1..], sep);
      [[s[0]] + rest[0]] + rest[1..]
  }

  /** A string that does not contain the separator's first character is not cut. */
  lemma {:induction false} SplitOnUncut(x: string, sep: string)
    requires sep != [] && sep[0] !in x
    ensures SplitOn(x, sep) == [x]
    decreases |x|
  {
    if |x| >= |sep| {
      assert x[..|sep|][0] != sep[0];
      SplitOnUncut(x[1..], sep);
      assert [x[0]] + x[1..] == x;
    }
  }

  /** A piece free of the separator's first character, followed by the separator,
      comes out as one part. */
  lemma {:induction false} SplitOnPiece(x: string, rest: string, sep: string)
    requires sep != [] && sep[0] !in x
    ensures SplitOn(x + sep + rest, sep) == [x] + SplitOn(rest, sep)
    decreases |x|
  {
    var s := x + sep + rest;
    if x == [] {
      assert s == sep + rest;
      assert s[..|sep|] == sep && s[|sep|..] == rest;
    } else {
      assert s[..|sep|][0] == x[0] != sep[0];
      assert s[1..] == x[1..] + sep + rest;
      SplitOnPiece(x[1..], rest, sep);
      assert [x[0]] + x[1..] == x;
    }
  }

  /** Joining and then splitting gives the parts back, provided no part contains
      the separator's first character. */
  lemma {:induction false} SplitOnJoin(xs: seq<string>, sep: string)
    requires xs != [] && sep != []
    requires forall x <- xs :: sep[0] !in x
    ensures SplitOn(Join(xs, sep), sep) == xs
    decreases |xs|
  {
    if |xs| == 1 {
      SplitOnUncut(xs[0], sep);
    } else {
      SplitOnPiece(xs[0], Join(xs[1..], sep), sep);
      SplitOnJoin(xs[1..], sep);
      assert [xs[0]] + xs[1..] == xs;
    }
  }

  /** With a one-character separator, splitting a concatenation around one
      separator splits each side on its own. */
  lemma {:induction false} SplitOnAround(a: string, b: string, sep: string)
    requires |sep| == 1
    ensures SplitOn(a + sep + b, sep) == SplitOn(a, sep) + SplitOn(b, sep)
    decreases |a|
  {
    var s := a + sep + b;
    if a == [] {
      assert s == sep + b;
      assert s[..1] == sep && s[1..] == b;
    } else {
      assert s[..1] == a[..1];
      assert s[1..] == a[1..] + sep + b;
      SplitOnAround(a[1..], b, sep);
    }
  }

  /** With a one-character separator, text free of the separator extends the
      last part. */
  lemma {:induction false} SplitOnExtend(s: string, x: string, sep: string)
    requires |sep| == 1 && sep[0] !in x
    ensures var parts := SplitOn(s, sep);
            SplitOn(s + x, sep) == parts[..|parts| - 1] + [parts[|parts| - 1] + x]
    decreases |s|
  {
    var t := s + x;
    if s == [] {
      assert t == x;
      SplitOnUncut(x, sep);
    } else {
      assert t[1..] == s[1..] + x;
      SplitOnExtend(s[1..], x, sep);
      if s[0] == sep[0] {
        assert s[..1] == sep && t[..1] == sep;
      } else {
        assert s[..1] != sep && t[..1] != sep;
        ExtendFirstPart(s[0], SplitOn(s[1..], sep), x);
      }
    }
  }

  /** The list step of `SplitOnExtend`: extending the last part commutes with
      prefixing the first part by one character. */
  lemma ExtendFirstPart(c: char, r: seq<string>, x: string)
    requires |r| >= 1
    ensures var parts := [[c] + r[0]] + r[1..];
            var r' := r[..|r| - 1] + [r[|r| - 1] + x];
            [[c] + r'[0]] + r'[1..] == parts[..|parts| - 1] + [parts[|parts| - 1] + x]
  {
    if |r| == 1 {
      assert [c] + r[0] + x == [c] + (r[0] + x);
    } else {
      var r' := r[..|r| - 1] + [r[|r| - 1] + x];
      assert r'[1..] == r[1..|r| - 1] + [r[|r| - 1] + x];
    }
  }

  // Line-by-line building: the lemmas below follow text that is built by
  // appending pieces, each stating the lines of the longer text in terms of the
  // lines of the shorter one.

  /** One-line text, followed by one-line text, extends the last line. */
  lemma SplitLinesExtend(s: string, x: string, before: seq<string>)
    requires '\n' !in x
    requires SplitOn(s, "\n") == before + [""]
    ensures SplitOn(s + x, "\n") == before + [x]
  {
    SplitOnExtend(s, x, "\n");
    var parts := SplitOn(s, "\n");
    assert parts[..|parts| - 1] == before;
    assert parts[|parts| - 1] + x == x;
  }

  /** A line given in two one-line pieces and ended by a line feed is added
      as one line. */
  lemma SplitLinesAddLine(s: string, a: string, b: string, before: seq<string>)
    requires '\n' !in a && '\n' !in b
    requires SplitOn(s, "\n") == before + [""]
    ensures SplitOn(s + a + b + "\n", "\n") == before + [a + b] + [""]
  {
    SplitLinesExtend(s, a, before);
    SplitOnExtend(s + a, b, "\n");
    assert (before + [a])[..|before|] == before;
    assert SplitOn(s + a + b, "\n") == before + [a + b];
    assert s + a + b + "\n" == s + a + b + "\n" + "";
    SplitOnAround(s + a + b, "", "\n");
    assert SplitOn("", "\n") == [""];
  }

  /** The same line followed by a blank line. */
  lemma SplitLinesAddLineAndBlank(s: string, a: string, b: string, before: seq<string>)
    requires '\n' !in a && '\n' !in b
    requires SplitOn(s, "\n") == before + [""]
    ensures SplitOn(s + a + b + "\n\n", "\n") == before + [a + b] + [""] + [""]
  {
    SplitLinesAddLine(s, a, b, before);
    var t := s + a + b + "\n";
    assert t + "\n" == t + "\n" + "";
    SplitOnAround(t, "", "\n");
    assert SplitOn("", "\n") == [""];
    assert s + a + b + "\n\n" == t + "\n";
  }

  /** A line feed pair is two line feeds, wherever it sits. */
  lemma LineFeedPair(a: string, b: string)
    ensures a + "\n\n" + b == a + "\n" + ("\n" + b)
  {
    assert "\n\n" == "\n" + "\n";
  }

  /** A leading line feed adds an empty first line. */
  lemma SplitLinesLeadingFeed(t: string)
    ensures SplitOn("\n" + t, "\n") == [""] + SplitOn(t, "\n")
  {
    var s := "\n" + t;
    assert s[..1] == "\n" && s[1..] == t;
  }

  /** A one-line text ended by a line feed is that line and an empty last line. */
  lemma SplitLinesOneLine(x: string)
    requires '\n' !in x
    ensures SplitOn(x + "\n", "\n") == [x] + [""]
  {
    assert x + "\n" == x + "\n" + "";
    SplitOnAround(x, "", "\n");
    SplitOnUncut(x, "\n");
    assert SplitOn("", "\n") == [""];
  }

  /** Two one-line texts around a blank line. */
  lemma SplitLinesBlankBetween(x: string, y: string)
    requires '\n' !in x && '\n' !in y
    ensures SplitOn(x + "\n\n" + y, "\n") == [x] + [""] + [y]
  {
    LineFeedPair(x, y);
    SplitOnAround(x, "\n" + y, "\n");
    SplitLinesLeadingFeed(y);
    SplitOnUncut(x, "\n");
    SplitOnUncut(y, "\n");
  }

  /** A blank line and then a one-line text ended by a line feed. */
  lemma SplitLinesBlankThenLine(s: string, x: string, parts: seq<string>)
    requires '\n' !in x
    requires SplitOn(s, "\n") == parts
    ensures SplitOn(s + "\n\n" + x + "\n", "\n") == parts + [""] + [x] + [""]
  {
    LineFeedPair(s, x + "\n");
    assert s + "\n\n" + x + "\n" == s + "\n\n" + (x + "\n");
    SplitOnAround(s, "\n" + (x + "\n"), "\n");
    SplitLinesLeadingFeed(x + "\n");
    SplitLinesOneLine(x);
  }
}
