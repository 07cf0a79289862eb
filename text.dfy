/** Python string operations the console front-end relies on, over `string` (= seq<char>).
    Whitespace and line boundaries are Python's own character classes. */
module Text {

  /** Python's str.isspace() on one character; str.split() and str.strip() with no
      argument work on these. */
  predicate IsSpace(c: char)
  {
    c == ' ' || c == '\t' || c == '\n' || c == '\r' || c == '\U{0B}' || c == '\U{0C}' ||
    ('\U{1C}' <= c <= '\U{1F}') || c == '\U{85}' || c == '\U{A0}' || c == '\U{1680}' ||
    ('\U{2000}' <= c <= '\U{200A}') || c == '\U{2028}' || c == '\U{2029}' ||
    c == '\U{202F}' || c == '\U{205F}' || c == '\U{3000}'
  }

  /** The characters at which Python's str.splitlines() breaks a line. */
  const LineBreaks: set<char> := {
    '\n', '\r', '\U{0B}', '\U{0C}', '\U{1C}', '\U{1D}', '\U{1E}', '\U{85}', '\U{2028}', '\U{2029}'
  }

  predicate SpaceFree(w: string) { forall i :: 0 <= i < |w| ==> !IsSpace(w[i]) }

  /** A word as str.split() yields it: non-empty and free of whitespace. */
  predicate IsWord(w: string) { w != [] && SpaceFree(w) }

  // ---------------------------------------------------------------------------
  // str.split() with no argument

  /** Length of the longest whitespace-free prefix of s. */
  function TokenLength(s: string): (n: nat)
    ensures n <= |s|
    ensures forall i :: 0 <= i < n ==> !IsSpace(s[i])
    ensures n < |s| ==> IsSpace(s[n])
  {
    if s == [] || IsSpace(s[0]) then 0 else 1 + TokenLength(s[1..])
  }

  /** str.split(): the maximal runs of non-whitespace characters, in order. */
  function Words(s: string): (ws: seq<string>)
    ensures forall i :: 0 <= i < |ws| ==> IsWord(ws[i])
    decreases |s|
  {
    if s == [] then []
    else if IsSpace(s[0]) then Words(s[1..])
    else
      var n := TokenLength(s);
      [s[..n]] + Words(s[n..])
  }

  /** sep.join(parts) */
  function Join(sep: string, parts: seq<string>): string
  {
    if parts == [] then ""
    else if |parts| == 1 then parts[0]
    else parts[0] + sep + Join(sep, parts[1..])
  }

  /** The words joined by single spaces: runs of whitespace collapsed to one space, ends
      trimmed. */
  function Collapse(s: string): string
  {
    Join(" ", Words(s))
  }

  lemma WordsOfWordThenRest(w: string, rest: string)
    requires IsWord(w)
    ensures Words(w + rest) == [w] + Words(rest) || (rest != [] && !IsSpace(rest[0]))
    ensures rest == [] || IsSpace(rest[0]) ==> Words(w + rest) == [w] + Words(rest)
  {
    var s := w + rest;
    if rest == [] || IsSpace(rest[0]) {
      TokenOfWord(w, rest);
      assert s[..|w|] == w && s[|w|..] == rest;
    }
  }

  lemma {:induction false} TokenOfWord(w: string, rest: string)
    requires SpaceFree(w)
    requires rest == [] || IsSpace(rest[0])
    ensures TokenLength(w + rest) == |w|
  {
    if w != [] {
      assert (w + rest)[1..] == w[1..] + rest;
      TokenOfWord(w[1..], rest);
    } else {
      assert w + rest == rest;
    }
  }

  lemma WordsOfSpaceThenRest(rest: string)
    ensures Words(" " + rest) == Words(rest)
  {
    assert (" " + rest)[1..] == rest;
  }

  /** Splitting a space-joined list of words gives back the words. */
  lemma {:induction false} WordsOfJoin(ws: seq<string>)
    requires forall i :: 0 <= i < |ws| ==> IsWord(ws[i])
    ensures Words(Join(" ", ws)) == ws
  {
    if ws == [] {
    } else if |ws| == 1 {
      WordsOfWordThenRest(ws[0], "");
      assert ws[0] + "" == ws[0];
    } else {
      var rest := Join(" ", ws[1..]);
      assert Join(" ", ws) == ws[0] + (" " + rest);
      WordsOfWordThenRest(ws[0], " " + rest);
      WordsOfSpaceThenRest(rest);
      WordsOfJoin(ws[1..]);
      assert ws == [ws[0]] + ws[1..];
    }
  }

  /** Collapsing keeps the token sequence. */
  lemma CollapseKeepsWords(s: string)
    ensures Words(Collapse(s)) == Words(s)
  {
    WordsOfJoin(Words(s));
  }

  /** Collapsing is idempotent. */
  lemma CollapseIdempotent(s: string)
    ensures Collapse(Collapse(s)) == Collapse(s)
  {
    CollapseKeepsWords(s);
  }

  /** Every whitespace character of a space-joined word list is a single ' ' with a
      non-space character on each side. */
  lemma {:induction false} JoinShape(ws: seq<string>)
    requires forall i :: 0 <= i < |ws| ==> IsWord(ws[i])
    ensures var r := Join(" ", ws);
      forall i :: 0 <= i < |r| && IsSpace(r[i]) ==>
        r[i] == ' ' && 0 < i < |r| - 1 && !IsSpace(r[i - 1]) && !IsSpace(r[i + 1])
    ensures ws != [] ==> Join(" ", ws) != [] && !IsSpace(Join(" ", ws)[0])
  {
    if |ws| <= 1 {
    } else {
      var rest := Join(" ", ws[1..]);
      JoinShape(ws[1..]);
      var r := Join(" ", ws);
      assert r == ws[0] + " " + rest;
      forall i | 0 <= i < |r|
        ensures IsSpace(r[i]) ==>
          r[i] == ' ' && 0 < i < |r| - 1 && !IsSpace(r[i - 1]) && !IsSpace(r[i + 1])
      {
        if i < |ws[0]| {
          assert !IsSpace(r[i]) by { assert r[i] == ws[0][i]; }
        } else if i == |ws[0]| {
          assert r[i - 1] == ws[0][i - 1];
          assert r[i + 1] == rest[0];
        } else if i == |ws[0]| + 1 {
          assert !IsSpace(r[i]) by { assert r[i] == rest[0]; }
        } else {
          var j := i - |ws[0]| - 1;
          assert r[i] == rest[j];
          assert r[i - 1] == rest[j - 1];
          if j + 1 < |rest| {
            assert r[i + 1] == rest[j + 1];
          }
        }
      }
    }
  }

  /** The result of collapsing has no leading or trailing whitespace, no two adjacent
      whitespace characters, and no whitespace other than ' '. */
  lemma CollapseShape(s: string)
    ensures var r := Collapse(s);
      (r != [] ==> !IsSpace(r[0]) && !IsSpace(r[|r| - 1])) &&
      (forall i :: 0 <= i < |r| && IsSpace(r[i]) ==> r[i] == ' ') &&
      (forall i :: 0 <= i < |r| - 1 ==> !(IsSpace(r[i]) && IsSpace(r[i + 1])))
  {
    JoinShape(Words(s));
  }

  // ---------------------------------------------------------------------------
  // str.strip(), str.lstrip(chars)

  /** s.lstrip(chars) */
  function LStripChars(s: string, chars: set<char>): (r: string)
    ensures |r| <= |s|
  {
    if s != [] && s[0] in chars then LStripChars(s[1..], chars) else s
  }

  /** lstrip(chars) removes a prefix made only of `chars` and leaves none at the front. */
  lemma {:induction false} LStripCharsShape(s: string, chars: set<char>)
    ensures var r := LStripChars(s, chars);
      r == s[|s| - |r|..] && (r == [] || r[0] !in chars) &&
      forall i :: 0 <= i < |s| - |r| ==> s[i] in chars
  {
    if s != [] && s[0] in chars {
      LStripCharsShape(s[1..], chars);
      var r := LStripChars(s, chars);
      forall i | 0 <= i < |s| - |r| ensures s[i] in chars {
        if i > 0 {
          assert s[i] == s[1..][i - 1];
        }
      }
    }
  }

  /** s.lstrip(): leading whitespace removed. */
  function LStrip(s: string): (r: string)
    ensures |r| <= |s|
  {
    if s != [] && IsSpace(s[0]) then LStrip(s[1..]) else s
  }

  lemma {:induction false} LStripShape(s: string)
    ensures var r := LStrip(s);
      r == s[|s| - |r|..] && (r == [] || !IsSpace(r[0])) &&
      forall i :: 0 <= i < |s| - |r| ==> IsSpace(s[i])
  {
    if s != [] && IsSpace(s[0]) {
      LStripShape(s[1..]);
      var r := LStrip(s);
      forall i | 0 <= i < |s| - |r| ensures IsSpace(s[i]) {
        if i > 0 {
          assert s[i] == s[1..][i - 1];
        }
      }
    }
  }

  /** s.rstrip(): trailing whitespace removed. */
  function RStrip(s: string): (r: string)
    ensures |r| <= |s|
  {
    if s != [] && IsSpace(s[|s| - 1]) then RStrip(s[..|s| - 1]) else s
  }

  lemma {:induction false} RStripShape(s: string)
    ensures var r := RStrip(s);
      r == s[..|r|] && (r == [] || !IsSpace(r[|r| - 1])) &&
      forall i :: |r| <= i < |s| ==> IsSpace(s[i])
  {
    if s != [] && IsSpace(s[|s| - 1]) {
      var init := s[..|s| - 1];
      RStripShape(init);
      var r := RStrip(s);
      assert r == RStrip(init);
      forall i | |r| <= i < |s| ensures IsSpace(s[i]) {
        if i < |s| - 1 {
          assert s[i] == init[i];
        }
      }
      assert init[..|r|] == s[..|r|];
    }
  }

  /** s.strip(): leading and trailing whitespace removed. */
  function Strip(s: string): (r: string)
  {
    RStrip(LStrip(s))
  }

  /** Stripping removes only whitespace, from the two ends, and leaves none at either end. */
  lemma StripShape(s: string)
    ensures var r := Strip(s); var k := |s| - |LStrip(s)|;
      k + |r| <= |s| && r == s[k..k + |r|] &&
      (forall i :: 0 <= i < k ==> IsSpace(s[i])) &&
      (forall i :: k + |r| <= i < |s| ==> IsSpace(s[i])) &&
      (r == [] || (!IsSpace(r[0]) && !IsSpace(r[|r| - 1])))
  {
    var l := LStrip(s);
    var r := RStrip(l);
    var k := |s| - |l|;
    LStripShape(s);
    RStripShape(l);
    assert r == s[k..k + |r|];
    forall i | k + |r| <= i < |s| ensures IsSpace(s[i]) {
      assert s[i] == l[i - k];
    }
    if r != [] {
      assert r[0] == l[0];
    }
  }

  /** A space-free string is its own strip. */
  lemma StripWord(w: string)
    requires SpaceFree(w)
    ensures Strip(w) == w
  {
    LStripShape(w);
    RStripShape(w);
    if w != [] {
      assert !IsSpace(w[0]) && !IsSpace(w[|w| - 1]);
    }
  }

  // ---------------------------------------------------------------------------
  // str.split(sep) for a one-character separator, str.splitlines(), str.replace()

  /** The pieces of s between separator characters (Python's s.split(sep) when seps = {sep});
      there is always at least one piece. */
  function Pieces(s: string, seps: set<char>): (ps: seq<string>)
    ensures |ps| >= 1
    decreases |s|
  {
    if s == [] then [""]
    else
      var rest := Pieces(s[1..], seps);
      if s[0] in seps then [""] + rest else [[s[0]] + rest[0]] + rest[1..]
  }

  /** No string of ps contains a character of seps. */
  predicate NoneOf(ps: seq<string>, seps: set<char>)
  {
    forall i, j :: 0 <= i < |ps| && 0 <= j < |ps[i]| ==> ps[i][j] !in seps
  }

  /** No piece contains a separator. */
  lemma {:induction false} PiecesFree(s: string, seps: set<char>)
    ensures NoneOf(Pieces(s, seps), seps)
    decreases |s|
  {
    if s != [] {
      PiecesFree(s[1..], seps);
      var rest := Pieces(s[1..], seps);
      assert NoneOf(rest, seps);
      var ps := Pieces(s, seps);
      if s[0] !in seps {
        var first := [s[0]] + rest[0];
        assert ps == [first] + rest[1..];
        forall i, j | 0 <= i < |ps| && 0 <= j < |ps[i]| ensures ps[i][j] !in seps {
          if i == 0 {
            if j > 0 {
              assert ps[0][j] == rest[0][j - 1];
            } else {
              assert ps[0][0] == s[0];
            }
          } else {
            assert ps[i] == rest[i];
          }
        }
      } else {
        assert ps == [""] + rest;
        forall i, j | 0 <= i < |ps| && 0 <= j < |ps[i]| ensures ps[i][j] !in seps {
          if i > 0 {
            assert ps[i] == rest[i - 1];
          }
        }
      }
    }
  }

  /** The pieces of a whitespace-free string are whitespace-free. */
  lemma {:induction false} PiecesSpaceFree(s: string, seps: set<char>)
    requires SpaceFree(s)
    ensures forall i :: 0 <= i < |Pieces(s, seps)| ==> SpaceFree(Pieces(s, seps)[i])
    decreases |s|
  {
    if s != [] {
      assert SpaceFree(s[1..]) by {
        forall i | 0 <= i < |s[1..]| ensures !IsSpace(s[1..][i]) {
          assert s[1..][i] == s[i + 1];
        }
      }
      PiecesSpaceFree(s[1..], seps);
      var rest := Pieces(s[1..], seps);
      if s[0] !in seps {
        assert !IsSpace(s[0]);
        var first := [s[0]] + rest[0];
        assert SpaceFree(rest[0]);
        forall i | 0 <= i < |first| ensures !IsSpace(first[i]) {
          if i > 0 {
            assert first[i] == rest[0][i - 1];
          }
        }
      }
    }
  }

  /** Stripping every piece of a whitespace-free string changes nothing. */
  lemma StripAllPiecesOfWord(s: string, sep: char)
    requires SpaceFree(s)
    ensures StripAll(SplitOn(s, sep)) == SplitOn(s, sep)
  {
    var ps := SplitOn(s, sep);
    PiecesSpaceFree(s, {sep});
    StripAllEach(ps);
    forall i | 0 <= i < |ps| ensures StripAll(ps)[i] == ps[i] {
      StripWord(ps[i]);
    }
  }

  /** s.split(sep) */
  function SplitOn(s: string, sep: char): seq<string>
  {
    Pieces(s, {sep})
  }

  /** Joining the pieces with the separator gives back the string. */
  lemma {:induction false} JoinSplitOn(s: string, sep: char)
    ensures Join([sep], SplitOn(s, sep)) == s
  {
    if s != [] {
      JoinSplitOn(s[1..], sep);
      var rest := SplitOn(s[1..], sep);
      if s[0] == sep {
        assert SplitOn(s, sep) == [""] + rest;
      } else {
        var ps := SplitOn(s, sep);
        assert ps == [[s[0]] + rest[0]] + rest[1..];
        if |rest| == 1 {
          assert Join([sep], ps) == [s[0]] + rest[0];
          assert Join([sep], rest) == rest[0];
        } else {
          assert Join([sep], rest) == rest[0] + [sep] + Join([sep], rest[1..]);
          assert ps[1..] == rest[1..];
          assert Join([sep], ps) == ([s[0]] + rest[0]) + [sep] + Join([sep], rest[1..]);
        }
        assert s == [s[0]] + s[1..];
      }
    }
  }

  /** Splitting a joined list of separator-free parts gives back the parts. */
  lemma {:induction false} SplitOnJoin(parts: seq<string>, sep: char)
    requires |parts| >= 1
    requires forall i :: 0 <= i < |parts| ==> sep !in parts[i]
    ensures SplitOn(Join([sep], parts), sep) == parts
  {
    if |parts| == 1 {
      SplitOnFree(parts[0], sep);
    } else {
      SplitOnJoin(parts[1..], sep);
      assert Join([sep], parts) == parts[0] + ([sep] + Join([sep], parts[1..]));
      SplitOnPrefix(parts[0], Join([sep], parts[1..]), sep);
      assert parts == [parts[0]] + parts[1..];
    }
  }

  lemma {:induction false} SplitOnFree(w: string, sep: char)
    requires sep !in w
    ensures SplitOn(w, sep) == [w]
  {
    if w != [] {
      SplitOnFree(w[1..], sep);
      assert w == [w[0]] + w[1..];
    }
  }

  lemma {:induction false} SplitOnPrefix(w: string, rest: string, sep: char)
    requires sep !in w
    ensures SplitOn(w + [sep] + rest, sep) == [w] + SplitOn(rest, sep)
  {
    var s := w + [sep] + rest;
    if w == [] {
      assert s == [sep] + rest;
      assert s[1..] == rest;
    } else {
      assert s[1..] == w[1..] + [sep] + rest;
      SplitOnPrefix(w[1..], rest, sep);
      assert w == [w[0]] + w[1..];
    }
  }

  /** The non-empty lines of s, as str.splitlines() gives them with the empty ones dropped. Splitting at every
      line-boundary character separately only adds empty pieces (between "\r" and "\n"),
      which are dropped here as in the source. */
  function NonEmptyLines(s: string): (ls: seq<string>)
    ensures forall i :: 0 <= i < |ls| ==> ls[i] != []
  {
    NonEmpty(Pieces(s, LineBreaks))
  }

  function NonEmpty(ss: seq<string>): (r: seq<string>)
    ensures |r| <= |ss|
    ensures forall i :: 0 <= i < |r| ==> r[i] != [] && r[i] in ss
  {
    if ss == [] then []
    else if ss[0] == [] then NonEmpty(ss[1..])
    else [ss[0]] + NonEmpty(ss[1..])
  }

  /** Filtering keeps exactly the non-empty members. */
  lemma {:induction false} NonEmptyMembers(ss: seq<string>, x: string)
    ensures x in NonEmpty(ss) <==> x != [] && x in ss
  {
    if ss != [] {
      NonEmptyMembers(ss[1..], x);
      assert ss == [ss[0]] + ss[1..];
    }
  }

  /** s.replace(pat, rep): non-overlapping occurrences, left to right. */
  function Replace(s: string, pat: string, rep: string): string
    requires pat != []
    decreases |s|
  {
    if |s| < |pat| then s
    else if s[..|pat|] == pat then rep + Replace(s[|pat|..], pat, rep)
    else [s[0]] + Replace(s[1..], pat, rep)
  }

  /** Removing every occurrence of one character leaves no occurrence of it. */
  lemma {:induction false} ReplaceRemovesChar(s: string, c: char)
    ensures c !in Replace(s, [c], "")
    decreases |s|
  {
    if |s| >= 1 {
      ReplaceRemovesChar(s[1..], c);
    }
  }

  /** Python's s.lower() on ASCII letters; other characters are kept. */
  function Lower(s: string): (r: string)
    ensures |r| == |s|
  {
    if s == [] then [] else [LowerChar(s[0])] + Lower(s[1..])
  }

  /** Lowering works character by character. */
  lemma {:induction false} LowerEach(s: string)
    ensures forall i :: 0 <= i < |s| ==> Lower(s)[i] == LowerChar(s[i])
  {
    if s != [] {
      LowerEach(s[1..]);
      forall i | 1 <= i < |s| ensures Lower(s)[i] == LowerChar(s[i]) {
        assert s[i] == s[1..][i - 1];
      }
    }
  }

  function LowerChar(c: char): char
  {
    if 'A' <= c <= 'Z' then (c as int + 32) as char else c
  }

  /** Each item stripped, in order. */
  function StripAll(xs: seq<string>): (r: seq<string>)
    ensures |r| == |xs|
  {
    if xs == [] then [] else [Strip(xs[0])] + StripAll(xs[1..])
  }

  /** The i-th stripped string is the i-th string stripped. */
  lemma {:induction false} StripAllEach(xs: seq<string>)
    ensures forall i :: 0 <= i < |xs| ==> StripAll(xs)[i] == Strip(xs[i])
  {
    if xs != [] {
      StripAllEach(xs[1..]);
      assert StripAll(xs) == [Strip(xs[0])] + StripAll(xs[1..]);
      forall i | 1 <= i < |xs| ensures StripAll(xs)[i] == Strip(xs[i]) {
        assert xs[i] == xs[1..][i - 1];
      }
    }
  }

  /** True when p is a prefix of s (Python's s.startswith(p)). */
  predicate StartsWith(s: string, p: string) { p <= s }

  /** s[1:]: everything after the first character, and nothing for the empty string. */
  function Rest(s: string): string
  {
    if s == [] then [] else s[1..]
  }
}
