/** `clean_text` (modules/utils.py): lowercase, drop characters outside the
    allow-list, collapse whitespace, then rewrite `M/D/YYYY` dates as
    `YYYY-MM-DD`. Character classes follow Python's `re` and `str` on the
    ASCII range: `\w` is letters, digits and `_`; `\s` and `str.strip` use
    the ASCII characters for which `str.isspace` holds. */
module TextClean {
  import opened Base

  // ---------------------------------------------------------------------
  // Character classes

  predicate IsUpper(c: char) { 'A' <= c <= 'Z' }
  predicate IsLowerLetter(c: char) { 'a' <= c <= 'z' }
  predicate IsDigit(c: char) { '0' <= c <= '9' }
  predicate IsWordChar(c: char) { IsUpper(c) || IsLowerLetter(c) || IsDigit(c) || c == '_' }

  /** Space, `\t \n \v \f \r` and the separators `\x1c`..`\x1f`. */
  predicate IsSpace(c: char) { c == ' ' || '\t' <= c <= '\r' || '\U{1C}' <= c <= '\U{1F}' }

  /** The character class `[\w\s'".,?@:/]` that the filter keeps. */
  predicate IsAllowed(c: char) {
    IsWordChar(c) || IsSpace(c) || c in "'\".,?@:/"
  }

  /** A character `clean_text` may emit: a kept character other than an
      upper-case letter, or the `-` of a rewritten date. */
  predicate IsOutputChar(c: char) { (IsAllowed(c) && !IsUpper(c)) || c == '-' }

  // ---------------------------------------------------------------------
  // The three string passes before the date rewrite

  function LowerChar(c: char): char {
    if IsUpper(c) then (c as int + 32) as char else c
  }

  /** `text.lower()`. */
  function Lower(s: string): (r: string)
    ensures |r| == |s|
    ensures forall i :: 0 <= i < |s| ==> !IsUpper(r[i])
    ensures forall i :: 0 <= i < |s| && IsUpper(s[i]) ==> IsLowerLetter(r[i]) && r[i] as int == s[i] as int + 32
    ensures forall i :: 0 <= i < |s| && !IsUpper(s[i]) ==> r[i] == s[i]
  {
    seq(|s|, i requires 0 <= i < |s| => LowerChar(s[i]))
  }

  /** `re.sub(r'[^\w\s\'\".,?@:/]', '', text)`: the allowed characters, in order. */
  function KeepAllowed(s: string): (r: string)
    ensures forall i :: 0 <= i < |r| ==> IsAllowed(r[i])
    ensures (forall i :: 0 <= i < |s| ==> IsAllowed(s[i])) ==> r == s
  {
    if s == [] then []
    else (if IsAllowed(s[0]) then [s[0]] else []) + KeepAllowed(s[1..])
  }

  /** The filter works character by character: a text filters to the
      filtered pieces it is made of. */
  lemma {:induction false} KeepAllowedAppend(a: string, b: string)
    ensures KeepAllowed(a + b) == KeepAllowed(a) + KeepAllowed(b)
  {
    if a == [] {
      assert a + b == b;
    } else {
      var ab := a + b;
      var head := if IsAllowed(a[0]) then [a[0]] else [];
      assert ab[0] == a[0] && ab[1..] == a[1..] + b;
      KeepAllowedAppend(a[1..], b);
      calc {
        KeepAllowed(ab);
        head + KeepAllowed(a[1..] + b);
        head + (KeepAllowed(a[1..]) + KeepAllowed(b));
        (head + KeepAllowed(a[1..])) + KeepAllowed(b);
        KeepAllowed(a) + KeepAllowed(b);
      }
    }
  }

  /** One character is kept exactly when the class allows it. */
  lemma {:induction false} KeepAllowedChar(c: char)
    ensures KeepAllowed([c]) == if IsAllowed(c) then [c] else []
  {
    assert [c][1..] == [];
  }

  lemma {:induction false} KeepAllowedChars(s: string)
    requires forall i :: 0 <= i < |s| ==> !IsUpper(s[i])
    ensures forall i :: 0 <= i < |KeepAllowed(s)| ==> IsOutputChar(KeepAllowed(s)[i])
  {
    if s != [] {
      KeepAllowedChars(s[1..]);
    }
  }

  /** Drop the leading whitespace (also `str.lstrip()`). */
  function SkipSpaces(s: string): (r: string)
    ensures |r| <= |s|
    ensures r != [] ==> !IsSpace(r[0])
    ensures forall i :: 0 <= i < |s| - |r| ==> IsSpace(s[i])
  {
    if s != [] && IsSpace(s[0]) then SkipSpaces(s[1..]) else s
  }

  /** What `SkipSpaces` leaves is a suffix of its input. */
  lemma {:induction false} SkipSpacesSuffix(s: string)
    ensures SkipSpaces(s) == s[|s| - |SkipSpaces(s)|..]
    decreases |s|
  {
    if s != [] && IsSpace(s[0]) {
      SkipSpacesSuffix(s[1..]);
    }
  }

  /** Drop the trailing whitespace (`str.rstrip()`). */
  function StripRight(s: string): (r: string)
    ensures |r| <= |s|
    ensures r != [] ==> r[0] == s[0] && !IsSpace(r[|r| - 1])
    ensures forall i :: |r| <= i < |s| ==> IsSpace(s[i])
  {
    if s != [] && IsSpace(s[|s| - 1]) then StripRight(s[..|s| - 1]) else s
  }

  /** What `StripRight` leaves is a prefix of its input. */
  lemma {:induction false} StripRightPrefix(s: string)
    ensures StripRight(s) == s[..|StripRight(s)|]
    decreases |s|
  {
    if s != [] && IsSpace(s[|s| - 1]) {
      StripRightPrefix(s[..|s| - 1]);
    }
  }

  /** `str.strip()`. */
  function Strip(s: string): (r: string)
    ensures r != [] ==> !IsSpace(r[0]) && !IsSpace(r[|r| - 1])
  {
    StripRight(SkipSpaces(s))
  }

  /** `re.sub(r'\s+', ' ', text)`: every maximal whitespace run becomes one space. */
  function SquashSpaces(s: string): string
    decreases |s|
  {
    if s == [] then []
    else if IsSpace(s[0]) then [' '] + SquashSpaces(SkipSpaces(s))
    else [s[0]] + SquashSpaces(s[1..])
  }

  /** The passes before the date rewrite, in the order `clean_text` runs them. */
  function Prepare(text: string): string {
    Strip(SquashSpaces(KeepAllowed(Lower(text))))
  }

  // ---------------------------------------------------------------------
  // Whitespace shape

  /** Every whitespace character is a plain space and is not followed by
      another whitespace character. */
  predicate SingleSpaced(s: string) {
    forall i :: 0 <= i < |s| && IsSpace(s[i]) ==> s[i] == ' ' && (i + 1 < |s| ==> !IsSpace(s[i + 1]))
  }

  /** The shape `clean_text` promises: single spaces between non-space
      characters, none at either end. */
  predicate Collapsed(s: string) {
    SingleSpaced(s) && (s != [] ==> !IsSpace(s[0]) && !IsSpace(s[|s| - 1]))
  }

  /** Everything `clean_text` returns satisfies this. */
  predicate Normalized(s: string) {
    Collapsed(s) && forall i :: 0 <= i < |s| ==> IsOutputChar(s[i])
  }

  /** The non-whitespace characters of a string, in order. */
  function NonSpace(s: string): string {
    if s == [] then [] else (if IsSpace(s[0]) then [] else [s[0]]) + NonSpace(s[1..])
  }

  lemma {:induction false} NonSpaceAppend(a: string, b: string)
    ensures NonSpace(a + b) == NonSpace(a) + NonSpace(b)
  {
    if a == [] {
      assert a + b == b;
    } else {
      var ab := a + b;
      var head := if IsSpace(a[0]) then [] else [a[0]];
      assert ab[0] == a[0] && ab[1..] == a[1..] + b;
      NonSpaceAppend(a[1..], b);
      calc {
        NonSpace(ab);
        head + NonSpace(a[1..] + b);
        head + (NonSpace(a[1..]) + NonSpace(b));
        (head + NonSpace(a[1..])) + NonSpace(b);
        NonSpace(a) + NonSpace(b);
      }
    }
  }

  lemma {:induction false} NonSpaceOfSpaces(s: string)
    requires forall i :: 0 <= i < |s| ==> IsSpace(s[i])
    ensures NonSpace(s) == []
  {
    if s != [] {
      NonSpaceOfSpaces(s[1..]);
    }
  }

  /** Every character of the string is one `clean_text` may emit. */
  predicate OutputChars(s: string) {
    forall i :: 0 <= i < |s| ==> IsOutputChar(s[i])
  }

  lemma {:induction false} SquashSpacesShape(s: string)
    ensures SingleSpaced(SquashSpaces(s))
    ensures SquashSpaces(s) == [] <==> s == []
    ensures s != [] ==> (IsSpace(SquashSpaces(s)[0]) <==> IsSpace(s[0]))
    decreases |s|
  {
    if s != [] {
      if IsSpace(s[0]) {
        SquashSpacesShape(SkipSpaces(s));
      } else {
        SquashSpacesShape(s[1..]);
      }
    }
  }

  lemma {:induction false} SquashSpacesChars(s: string)
    requires OutputChars(s)
    ensures OutputChars(SquashSpaces(s))
    decreases |s|
  {
    if s != [] {
      if IsSpace(s[0]) {
        var t := SkipSpaces(s);
        SkipSpacesSuffix(s);
        OutputCharsSlice(s, |s| - |t|, |s|);
        SquashSpacesChars(t);
      } else {
        OutputCharsSlice(s, 1, |s|);
        SquashSpacesChars(s[1..]);
      }
    }
  }

  lemma {:induction false} SquashSpacesKeepsText(s: string)
    ensures NonSpace(SquashSpaces(s)) == NonSpace(s)
    decreases |s|
  {
    if s != [] {
      if IsSpace(s[0]) {
        var t := SkipSpaces(s);
        SkipSpacesSuffix(s);
        SquashSpacesKeepsText(t);
        assert s == s[..|s| - |t|] + t;
        NonSpaceAppend(s[..|s| - |t|], t);
        NonSpaceOfSpaces(s[..|s| - |t|]);
        NonSpaceAppend([' '], SquashSpaces(t));
      } else {
        SquashSpacesKeepsText(s[1..]);
        assert s == [s[0]] + s[1..];
        NonSpaceAppend([s[0]], SquashSpaces(s[1..]));
      }
    }
  }

  lemma {:induction false} SingleSpacedSlice(s: string, a: nat, b: nat)
    requires SingleSpaced(s) && a <= b <= |s|
    ensures SingleSpaced(s[a..b])
  {
    var t := s[a..b];
    forall i | 0 <= i < |t| && IsSpace(t[i]) ensures t[i] == ' ' && (i + 1 < |t| ==> !IsSpace(t[i + 1])) {
      assert t[i] == s[a + i];
      if i + 1 < |t| { assert t[i + 1] == s[a + i + 1]; }
    }
  }

  lemma {:induction false} OutputCharsSlice(s: string, a: nat, b: nat)
    requires OutputChars(s) && a <= b <= |s|
    ensures OutputChars(s[a..b])
  {
    forall i | 0 <= i < b - a ensures IsOutputChar(s[a..b][i]) {
      assert s[a..b][i] == s[a + i];
    }
  }

  /** `Strip` removes only whitespace, from both ends. */
  lemma {:induction false} StripSlice(s: string) returns (a: nat, b: nat)
    ensures a <= b <= |s| && Strip(s) == s[a..b]
    ensures forall i :: 0 <= i < a ==> IsSpace(s[i])
    ensures forall i :: b <= i < |s| ==> IsSpace(s[i])
  {
    var l := SkipSpaces(s);
    SkipSpacesSuffix(s);
    var r := StripRight(l);
    StripRightPrefix(l);
    a := |s| - |l|;
    b := a + |r|;
    assert l[..|r|] == s[a..b];
  }

  lemma {:induction false} StripShape(s: string)
    requires SingleSpaced(s)
    ensures Collapsed(Strip(s))
    ensures OutputChars(s) ==> OutputChars(Strip(s))
  {
    var a, b := StripSlice(s);
    SingleSpacedSlice(s, a, b);
    if OutputChars(s) { OutputCharsSlice(s, a, b); }
  }

  lemma {:induction false} StripKeepsText(s: string)
    ensures NonSpace(Strip(s)) == NonSpace(s)
  {
    var a, b := StripSlice(s);
    assert s == s[..a] + s[a..b] + s[b..];
    NonSpaceAppend(s[..a] + s[a..b], s[b..]);
    NonSpaceAppend(s[..a], s[a..b]);
    NonSpaceOfSpaces(s[..a]);
    NonSpaceOfSpaces(s[b..]);
  }

  // ---------------------------------------------------------------------
  // Whitespace runs and words

  /** Skipping leading whitespace stops at the first non-space character,
      whatever follows it. */
  lemma {:induction false} SkipSpacesAppend(a: string, b: string)
    requires a != [] && !IsSpace(a[|a| - 1])
    ensures SkipSpaces(a + b) == SkipSpaces(a) + b
    decreases |a|
  {
    var ab := a + b;
    assert ab[0] == a[0];
    if IsSpace(a[0]) {
      assert ab[1..] == a[1..] + b;
      SkipSpacesAppend(a[1..], b);
    }
  }

  lemma {:induction false} Regroup(x: string, y: string, z: string)
    ensures x + (y + z) == (x + y) + z
  {
  }

  /** A whitespace run is skipped up to the text that follows it. */
  lemma {:induction false} SkipSpacesRun(w: string, b: string)
    requires forall i :: 0 <= i < |w| ==> IsSpace(w[i])
    requires b == [] || !IsSpace(b[0])
    ensures SkipSpaces(w + b) == b
    decreases |w|
  {
    if w == [] {
      assert w + b == b;
    } else {
      assert (w + b)[0] == w[0] && (w + b)[1..] == w[1..] + b;
      SkipSpacesRun(w[1..], b);
    }
  }

  /** A text that does not end inside a whitespace run squashes on its own:
      the squash of a concatenation is the concatenation of the squashes. */
  lemma {:induction false} SquashSpacesAppend(a: string, b: string)
    requires a == [] || !IsSpace(a[|a| - 1])
    ensures SquashSpaces(a + b) == SquashSpaces(a) + SquashSpaces(b)
    decreases |a|
  {
    var ab := a + b;
    if a == [] {
      assert ab == b;
    } else if IsSpace(a[0]) {
      var t := SkipSpaces(a);
      SkipSpacesAppend(a, b);
      SkipSpacesSuffix(a);
      assert t != [] && t[|t| - 1] == a[|a| - 1];
      SquashSpacesAppend(t, b);
      assert ab[0] == a[0];
      assert SquashSpaces(ab) == [' '] + SquashSpaces(t + b);
      assert SquashSpaces(a) == [' '] + SquashSpaces(t);
      Regroup([' '], SquashSpaces(t), SquashSpaces(b));
    } else {
      assert ab[0] == a[0] && ab[1..] == a[1..] + b;
      SquashSpacesAppend(a[1..], b);
      assert SquashSpaces(ab) == [a[0]] + SquashSpaces(a[1..] + b);
      assert SquashSpaces(a) == [a[0]] + SquashSpaces(a[1..]);
      Regroup([a[0]], SquashSpaces(a[1..]), SquashSpaces(b));
    }
  }

  /** `re.sub(r'\s+', ' ', ...)` replaces a whole whitespace run, however long
      and of whatever whitespace characters, by one space; the text on either
      side is squashed on its own. */
  lemma {:induction false} SquashSpacesRun(a: string, w: string, b: string)
    requires a == [] || !IsSpace(a[|a| - 1])
    requires w != [] && forall i :: 0 <= i < |w| ==> IsSpace(w[i])
    requires b == [] || !IsSpace(b[0])
    ensures SquashSpaces(a + w + b) == SquashSpaces(a) + " " + SquashSpaces(b)
  {
    assert a + w + b == a + (w + b);
    SquashSpacesAppend(a, w + b);
    SkipSpacesRun(w, b);
    assert (w + b)[0] == w[0];
  }

  /** The non-space run a text starts with. */
  function WordAt(s: string): (r: string)
    ensures |r| <= |s| && r == s[..|r|]
    ensures NoSpace(r)
    ensures |r| < |s| ==> IsSpace(s[|r|])
    ensures s != [] && !IsSpace(s[0]) ==> r != []
  {
    if s == [] || IsSpace(s[0]) then []
    else [s[0]] + WordAt(s[1..])
  }

  /** `str.split()` with no argument: the maximal non-space runs, in order. */
  function Words(s: string): (r: seq<string>)
    ensures forall i :: 0 <= i < |r| ==> r[i] != [] && NoSpace(r[i])
    decreases |s|
  {
    var t := SkipSpaces(s);
    if t == [] then []
    else
      var w := WordAt(t);
      [w] + Words(t[|w|..])
  }

  /** `" ".join(words)`. */
  function JoinWords(ws: seq<string>): string {
    if ws == [] then []
    else if |ws| == 1 then ws[0]
    else ws[0] + " " + JoinWords(ws[1..])
  }

  /** Words joined by single spaces neither start nor end with whitespace. */
  lemma {:induction false} JoinWordsEnds(ws: seq<string>)
    requires forall i :: 0 <= i < |ws| ==> ws[i] != [] && NoSpace(ws[i])
    ensures JoinWords(ws) == [] <==> ws == []
    ensures JoinWords(ws) != [] ==> !IsSpace(JoinWords(ws)[0]) && !IsSpace(JoinWords(ws)[|JoinWords(ws)| - 1])
  {
    if |ws| >= 2 {
      JoinWordsEnds(ws[1..]);
      var j := JoinWords(ws);
      var tail := JoinWords(ws[1..]);
      assert j == ws[0] + " " + tail;
      assert j[0] == ws[0][0];
      assert j[|j| - 1] == tail[|tail| - 1];
    }
  }

  /** A text that starts with a non-space character has the same words as
      what follows its first word. */
  lemma {:induction false} WordsStep(t: string)
    requires t != [] && !IsSpace(t[0])
    ensures Words(t) == [WordAt(t)] + Words(t[|WordAt(t)|..])
  {
    assert SkipSpaces(t) == t;
  }

  /** Leading whitespace does not change the words. */
  lemma {:induction false} WordsSkip(s: string)
    ensures Words(s) == Words(SkipSpaces(s))
  {
    var u := SkipSpaces(s);
    assert SkipSpaces(u) == u;
  }

  /** The one space a squashed text keeps after its last word when it ends
      in whitespace. */
  function TrailingSpace(t: string): string {
    if t != [] && IsSpace(t[|t| - 1]) then " " else ""
  }

  /** On a text that starts with a non-space character, squashing gives its
      words joined by single spaces, plus one space when it ends in
      whitespace. */
  lemma {:induction false} SquashSpacesWords(t: string)
    requires t == [] || !IsSpace(t[0])
    ensures SquashSpaces(t) == JoinWords(Words(t)) + TrailingSpace(t)
    decreases |t|
  {
    if t != [] {
      var w := WordAt(t);
      var rest := t[|w|..];
      assert t == w + rest;
      WordsStep(t);
      SquashSpacesWord(w, rest);
      if rest == [] {
        assert Words(t) == [w];
        assert t[|t| - 1] == w[|w| - 1];
      } else {
        var u := SkipSpaces(rest);
        SquashSpacesWords(u);
        SpaceLed(rest, u);
        TrailingSpaceSuffix(w, rest);
        if u == [] {
          assert Words(t) == [w] + [];
          assert JoinWords([w]) == w;
        } else {
          assert Words(t) == [w] + Words(u);
          MoreWords(w, Words(u), SquashSpaces(u), TrailingSpace(t), SquashSpaces(t));
        }
      }
    }
  }

  /** A text that starts with whitespace squashes to one space and the
      squash of what follows the run; it has the words of what follows. */
  lemma {:induction false} SpaceLed(rest: string, u: string)
    requires rest != [] && IsSpace(rest[0]) && u == SkipSpaces(rest)
    ensures SquashSpaces(rest) == [' '] + SquashSpaces(u)
    ensures Words(rest) == Words(u)
    ensures u == [] ==> TrailingSpace(rest) == " " && Words(u) == [] && SquashSpaces(u) == []
    ensures u != [] ==> TrailingSpace(u) == TrailingSpace(rest)
  {
    WordsSkip(rest);
    SkipSpacesSuffix(rest);
    if u != [] {
      assert u[|u| - 1] == rest[|rest| - 1];
    }
  }

  /** Whether a text ends in whitespace is decided by any non-empty suffix. */
  lemma {:induction false} TrailingSpaceSuffix(w: string, rest: string)
    requires rest != []
    ensures TrailingSpace(w + rest) == TrailingSpace(rest)
  {
    assert (w + rest)[|w + rest| - 1] == rest[|rest| - 1];
  }

  /** A first word, one space, then the other words joined. */
  lemma {:induction false} MoreWords(w: string, ws: seq<string>, squashed: string, trail: string, whole: string)
    requires ws != [] && squashed == JoinWords(ws) + trail
    requires whole == w + ([' '] + squashed)
    ensures whole == JoinWords([w] + ws) + trail
  {
    var all := [w] + ws;
    assert |all| >= 2 && all[0] == w && all[1..] == ws;
    assert JoinWords(all) == w + " " + JoinWords(ws);
  }

  /** A word passes the squash unchanged, and the squash goes on after it. */
  lemma {:induction false} SquashSpacesWord(w: string, b: string)
    requires NoSpace(w)
    ensures SquashSpaces(w + b) == w + SquashSpaces(b)
    decreases |w|
  {
    if w == [] {
      assert w + b == b;
    } else {
      var wb := w + b;
      assert wb[0] == w[0] && wb[1..] == w[1..] + b;
      SquashSpacesWord(w[1..], b);
      assert w == [w[0]] + w[1..];
    }
  }

  /** Stripping a text that starts and ends with non-space characters, with
      at most one space after it, gives the text. */
  lemma {:induction false} StripJoined(j: string, trail: string)
    requires j == [] || (!IsSpace(j[0]) && !IsSpace(j[|j| - 1]))
    requires trail == [] || trail == " "
    ensures Strip(j + trail) == j
  {
    var jt := j + trail;
    if j == [] {
      assert jt == trail;
      if trail != [] { assert trail[1..] == []; }
    } else {
      assert jt[0] == j[0];
      assert SkipSpaces(jt) == jt;
      if trail != [] {
        assert jt[..|jt| - 1] == j;
        assert IsSpace(jt[|jt| - 1]);
        assert StripRight(jt) == StripRight(j);
      }
      assert StripRight(j) == j;
    }
  }

  /** `re.sub(r'\s+', ' ', text).strip()` is `" ".join(text.split())`: the
      words of the text, in order, separated by single spaces. */
  lemma {:induction false} NormalizeSpacesWords(s: string)
    ensures Strip(SquashSpaces(s)) == JoinWords(Words(s))
  {
    var u := SkipSpaces(s);
    WordsSkip(s);
    SquashSpacesWords(u);
    JoinWordsEnds(Words(u));
    StripJoined(JoinWords(Words(u)), TrailingSpace(u));
    if s != [] && IsSpace(s[0]) {
      assert SquashSpaces(s) == [' '] + SquashSpaces(u);
      StripLeadingSpace(SquashSpaces(u));
    } else {
      assert u == s;
    }
  }

  /** One leading space makes no difference to `str.strip()`. */
  lemma {:induction false} StripLeadingSpace(x: string)
    ensures Strip([' '] + x) == Strip(x)
  {
    assert ([' '] + x)[1..] == x;
    assert SkipSpaces([' '] + x) == SkipSpaces(x);
  }

  /** The passes before the date rewrite leave a lower-case string of
      allowed characters, single-spaced and trimmed, that keeps every
      allowed non-space character of the lowered input in order. */
  lemma {:induction false} PrepareShape(text: string)
    ensures Normalized(Prepare(text))
    ensures NonSpace(Prepare(text)) == NonSpace(KeepAllowed(Lower(text)))
    ensures Prepare(text) == JoinWords(Words(KeepAllowed(Lower(text))))
  {
    var k := KeepAllowed(Lower(text));
    NormalizeSpacesWords(k);
    KeepAllowedChars(Lower(text));
    SquashSpacesShape(k);
    SquashSpacesChars(k);
    SquashSpacesKeepsText(k);
    StripShape(SquashSpaces(k));
    StripKeepsText(SquashSpaces(k));
  }

  // ---------------------------------------------------------------------
  // Date tokens: `re.findall(r'\d{1,2}/\d{1,2}/\d{4}', text)`

  /** A match of `\d{1,2}/\d{1,2}/\d{4}`, split at its two slashes. */
  datatype DateToken = DateToken(month: string, day: string, year: string)

  function TokenText(d: DateToken): string {
    d.month + "/" + d.day + "/" + d.year
  }

  predicate AllDigits(s: string) {
    forall i :: 0 <= i < |s| ==> IsDigit(s[i])
  }

  predicate WellShaped(d: DateToken) {
    && 1 <= |d.month| <= 2 && AllDigits(d.month)
    && 1 <= |d.day| <= 2 && AllDigits(d.day)
    && |d.year| == 4 && AllDigits(d.year)
  }

  /** The length of a `\d{1,2}/` group starting at `i`, without its slash, or
      0 when none starts there. Greedy matching with backtracking finds at
      most one such length: two digits need a slash third, one digit needs a
      slash second. */
  function GroupLen(s: string, i: nat): (n: nat)
    ensures n <= 2
    ensures n > 0 ==> i + n < |s| && AllDigits(s[i..i + n]) && s[i + n] == '/'
  {
    if i + 2 < |s| && IsDigit(s[i]) && IsDigit(s[i + 1]) && s[i + 2] == '/' then 2
    else if i + 1 < |s| && IsDigit(s[i]) && s[i + 1] == '/' then 1
    else 0
  }

  /** The match of the date pattern anchored at the start of `s`, if any. */
  function MatchAt(s: string): (r: Option<DateToken>)
    ensures r.Some? ==> WellShaped(r.value) && StartsWith(s, TokenText(r.value))
  {
    var a := GroupLen(s, 0);
    if a == 0 then None
    else
      var b := GroupLen(s, a + 1);
      if b == 0 then None
      else
        var y := a + b + 2;
        if y + 4 <= |s| && AllDigits(s[y..y + 4]) then
          SlashedPrefix(s, a, b);
          Some(DateToken(s[..a], s[a + 1..a + 1 + b], s[y..y + 4]))
        else None
  }

  /** Cutting a text at two slashes and four characters after the second
      gives a token whose text starts the text. */
  lemma {:induction false} SlashedPrefix(s: string, a: nat, b: nat)
    requires a + b + 6 <= |s| && s[a] == '/' && s[a + 1 + b] == '/'
    ensures StartsWith(s, TokenText(DateToken(s[..a], s[a + 1..a + 1 + b], s[a + b + 2..a + b + 6])))
  {
    var t := TokenText(DateToken(s[..a], s[a + 1..a + 1 + b], s[a + b + 2..a + b + 6]));
    assert |t| == a + b + 6;
    forall i | 0 <= i < |t|
      ensures t[i] == s[i]
    {
      if i < a {
      } else if i == a {
      } else if i < a + 1 + b {
      } else if i == a + 1 + b {
      } else {
      }
    }
    assert s[..|t|] == t;
  }

  /** A well-shaped token is matched in full wherever it stands first, whatever
      follows it. */
  lemma {:induction false} MatchToken(d: DateToken, rest: string)
    requires WellShaped(d)
    ensures MatchAt(TokenText(d) + rest) == Some(d)
  {
    var s := TokenText(d) + rest;
    var a := |d.month|;
    var b := |d.day|;
    assert s[a] == '/' && s[a + 1 + b] == '/';
    assert s[..a] == d.month;
    assert s[a + 1..a + 1 + b] == d.day;
    assert s[a + b + 2..a + b + 6] == d.year;
    assert GroupLen(s, 0) == a;
    assert GroupLen(s, a + 1) == b;
  }

  /** The non-overlapping matches, left to right, as `re.findall` returns them. */
  function FindDates(s: string): (r: seq<DateToken>)
    ensures forall i :: 0 <= i < |r| ==> WellShaped(r[i])
    decreases |s|
  {
    if s == [] then []
    else match MatchAt(s)
      case Some(d) => [d] + FindDates(s[|TokenText(d)|..])
      case None => FindDates(s[1..])
  }

  // ---------------------------------------------------------------------
  // `datetime.strptime(date, '%m/%d/%Y').strftime('%Y-%m-%d')`

  function DigitValue(c: char): nat
    requires IsDigit(c)
  {
    c as int - '0' as int
  }

  function DigitChar(n: nat): (c: char)
    requires n < 10
    ensures IsDigit(c) && DigitValue(c) == n
  {
    ('0' as int + n) as char
  }

  /** The decimal value of a digit string. */
  function Value(s: string): nat
    requires AllDigits(s)
  {
    if s == [] then 0 else 10 * Value(s[..|s| - 1]) + DigitValue(s[|s| - 1])
  }

  function Pow10(w: nat): nat {
    if w == 0 then 1 else 10 * Pow10(w - 1)
  }

  /** `n` written with exactly `w` digits, zero-padded on the left. */
  function Digits(n: nat, w: nat): (r: string)
    ensures |r| == w && AllDigits(r)
  {
    if w == 0 then "" else Digits(n / 10, w - 1) + [DigitChar(n % 10)]
  }

  lemma {:induction false} ValueBound(s: string)
    requires AllDigits(s)
    ensures Value(s) < Pow10(|s|)
  {
    if s != [] {
      ValueBound(s[..|s| - 1]);
    }
  }

  /** Writing a number with enough digits and reading it back gives the number. */
  lemma {:induction false} DigitsValue(n: nat, w: nat)
    requires n < Pow10(w)
    ensures Value(Digits(n, w)) == n
  {
    if w > 0 {
      DigitsValue(n / 10, w - 1);
      var r := Digits(n, w);
      assert r[..w - 1] == Digits(n / 10, w - 1);
    }
  }

  predicate IsLeapYear(y: nat) {
    y % 4 == 0 && (y % 100 != 0 || y % 400 == 0)
  }

  function DaysInMonth(y: nat, m: nat): nat
    requires 1 <= m <= 12
  {
    if m == 2 then (if IsLeapYear(y) then 29 else 28)
    else if m == 4 || m == 6 || m == 9 || m == 11 then 30
    else 31
  }

  /** What `strptime` accepts: a month 1-12, a year from 1 (`datetime.MINYEAR`)
      and a day that exists in that month of the proleptic Gregorian calendar. */
  predicate ValidDate(y: nat, m: nat, d: nat) {
    1 <= y && 1 <= m <= 12 && 1 <= d <= DaysInMonth(y, m)
  }

  /** The rewrite of one matched token: `YYYY-MM-DD`, or ValueError. */
  function Standardize(t: DateToken): (r: Result<string>)
    requires WellShaped(t)
    ensures r.Ok? <==> ValidDate(Value(t.year), Value(t.month), Value(t.day))
    ensures r.Err? ==> r.error == InvalidDate(TokenText(t))
    ensures r.Ok? ==> |r.value| == 10 && r.value[4] == '-' && r.value[7] == '-'
    ensures r.Ok? ==> forall i :: 0 <= i < |r.value| ==> IsDigit(r.value[i]) || r.value[i] == '-'
  {
    var y, m, d := Value(t.year), Value(t.month), Value(t.day);
    if ValidDate(y, m, d) then Ok(Digits(y, 4) + "-" + Digits(m, 2) + "-" + Digits(d, 2))
    else Err(InvalidDate(TokenText(t)))
  }

  /** The rewritten date reads back as the same year, month and day. */
  lemma {:induction false} StandardizeRoundTrip(t: DateToken)
    requires WellShaped(t) && Standardize(t).Ok?
    ensures var r := Standardize(t).value;
      && Value(r[..4]) == Value(t.year)
      && Value(r[5..7]) == Value(t.month)
      && Value(r[8..]) == Value(t.day)
  {
    var y, m, d := Value(t.year), Value(t.month), Value(t.day);
    ValueBound(t.year);
    DigitsValue(y, 4);
    DigitsValue(m, 2);
    DigitsValue(d, 2);
    var r := Standardize(t).value;
    assert r[..4] == Digits(y, 4);
    assert r[5..7] == Digits(m, 2);
    assert r[8..] == Digits(d, 2);
  }

  /** Every token in the list rewrites without error. */
  predicate AllValid(dates: seq<DateToken>)
    requires forall i :: 0 <= i < |dates| ==> WellShaped(dates[i])
  {
    forall i :: 0 <= i < |dates| ==> Standardize(dates[i]).Ok?
  }

  // ---------------------------------------------------------------------
  // Keeping the shape when non-space blocks are replaced by non-space blocks

  predicate NoSpace(s: string) {
    forall i :: 0 <= i < |s| ==> !IsSpace(s[i])
  }

  lemma {:induction false} SingleSpacedConcat(a: string, b: string)
    requires SingleSpaced(a) && SingleSpaced(b)
    requires a != [] && b != [] && IsSpace(a[|a| - 1]) ==> !IsSpace(b[0])
    ensures SingleSpaced(a + b)
  {
    var ab := a + b;
    forall i | 0 <= i < |ab| && IsSpace(ab[i]) ensures ab[i] == ' ' && (i + 1 < |ab| ==> !IsSpace(ab[i + 1])) {
      if i < |a| {
        assert ab[i] == a[i];
        if i + 1 < |a| { assert ab[i + 1] == a[i + 1]; }
        else if i + 1 < |ab| { assert ab[i + 1] == b[0]; }
      } else {
        assert ab[i] == b[i - |a|];
        if i + 1 < |ab| { assert ab[i + 1] == b[i + 1 - |a|]; }
      }
    }
  }

  lemma {:induction false} OutputCharsConcat(a: string, b: string)
    requires OutputChars(a) && OutputChars(b)
    ensures OutputChars(a + b)
  {
    var ab := a + b;
    forall i | 0 <= i < |ab| ensures IsOutputChar(ab[i]) {
      if i < |a| { assert ab[i] == a[i]; } else { assert ab[i] == b[i - |a|]; }
    }
  }

  // ---------------------------------------------------------------------
  // The date rewrite as written: `text.replace(date, standardized_date)` for
  // every found date in turn

  /** `s.replace(pat, rep)`: the non-overlapping occurrences of `pat`, found
      left to right, each replaced by `rep`. */
  function ReplaceAll(s: string, pat: string, rep: string): string
    requires pat != []
    decreases |s|
  {
    if |s| < |pat| then s
    else if s[..|pat|] == pat then rep + ReplaceAll(s[|pat|..], pat, rep)
    else [s[0]] + ReplaceAll(s[1..], pat, rep)
  }

  lemma {:induction false} ReplaceAllEnds(s: string, pat: string, rep: string)
    requires pat != [] && rep != [] && NoSpace(pat) && NoSpace(rep)
    ensures var r := ReplaceAll(s, pat, rep);
      && (r == [] <==> s == [])
      && (s != [] ==> (IsSpace(r[0]) <==> IsSpace(s[0])))
      && (s != [] ==> (IsSpace(r[|r| - 1]) <==> IsSpace(s[|s| - 1])))
    decreases |s|
  {
    if |s| >= |pat| {
      var r := ReplaceAll(s, pat, rep);
      if s[..|pat|] == pat {
        var rest := s[|pat|..];
        var tail := ReplaceAll(rest, pat, rep);
        ReplaceAllEnds(rest, pat, rep);
        assert r == rep + tail;
        assert s[|pat| - 1] == pat[|pat| - 1];
        if rest != [] { assert r[|r| - 1] == tail[|tail| - 1]; }
      } else {
        var tail := ReplaceAll(s[1..], pat, rep);
        ReplaceAllEnds(s[1..], pat, rep);
        assert r == [s[0]] + tail;
        if |s| > 1 { assert r[|r| - 1] == tail[|tail| - 1]; }
      }
    }
  }

  lemma {:induction false} ReplaceAllSpacing(s: string, pat: string, rep: string)
    requires pat != [] && rep != [] && NoSpace(pat) && NoSpace(rep)
    requires SingleSpaced(s)
    ensures SingleSpaced(ReplaceAll(s, pat, rep))
    decreases |s|
  {
    if |s| >= |pat| {
      if s[..|pat|] == pat {
        var rest := s[|pat|..];
        SingleSpacedSlice(s, |pat|, |s|);
        ReplaceAllSpacing(rest, pat, rep);
        SingleSpacedConcat(rep, ReplaceAll(rest, pat, rep));
      } else {
        SingleSpacedSlice(s, 1, |s|);
        ReplaceAllSpacing(s[1..], pat, rep);
        ReplaceAllEnds(s[1..], pat, rep);
        SingleSpacedConcat([s[0]], ReplaceAll(s[1..], pat, rep));
      }
    }
  }

  lemma {:induction false} ReplaceAllChars(s: string, pat: string, rep: string)
    requires pat != [] && OutputChars(s) && OutputChars(rep)
    ensures OutputChars(ReplaceAll(s, pat, rep))
    decreases |s|
  {
    if |s| >= |pat| {
      if s[..|pat|] == pat {
        OutputCharsSlice(s, |pat|, |s|);
        ReplaceAllChars(s[|pat|..], pat, rep);
        OutputCharsConcat(rep, ReplaceAll(s[|pat|..], pat, rep));
      } else {
        OutputCharsSlice(s, 1, |s|);
        ReplaceAllChars(s[1..], pat, rep);
        OutputCharsConcat([s[0]], ReplaceAll(s[1..], pat, rep));
      }
    }
  }

  /** Replacing a space-free token by a space-free date of output characters
      keeps a normalized text normalized. */
  lemma {:induction false} ReplaceDateKeepsNormalized(s: string, t: DateToken, std: string)
    requires WellShaped(t) && Standardize(t) == Ok(std) && Normalized(s)
    ensures Normalized(ReplaceAll(s, TokenText(t), std))
  {
    var pat := TokenText(t);
    assert NoSpace(pat) by {
      forall i | 0 <= i < |pat| ensures !IsSpace(pat[i]) {
        assert pat[i] == '/' || IsDigit(pat[i]);
      }
    }
    ReplaceAllEnds(s, pat, std);
    ReplaceAllSpacing(s, pat, std);
    ReplaceAllChars(s, pat, std);
  }

  /** The fold the loop of `clean_text` performs: for each found date in turn,
      parse it (ValueError if it is no calendar date) and replace all of its
      occurrences in the current text. */
  function ReplaceEachDate(text: string, dates: seq<DateToken>): Result<string>
    requires forall i :: 0 <= i < |dates| ==> WellShaped(dates[i])
    decreases |dates|
  {
    if dates == [] then Ok(text)
    else match Standardize(dates[0])
      case Err(e) => Err(e)
      case Ok(std) => ReplaceEachDate(ReplaceAll(text, TokenText(dates[0]), std), dates[1..])
  }

  lemma {:induction false} ReplaceEachDateFails(text: string, dates: seq<DateToken>)
    requires forall i :: 0 <= i < |dates| ==> WellShaped(dates[i])
    ensures ReplaceEachDate(text, dates).Err? <==> !AllValid(dates)
    decreases |dates|
  {
    if dates != [] && Standardize(dates[0]).Ok? {
      ReplaceEachDateFails(ReplaceAll(text, TokenText(dates[0]), Standardize(dates[0]).value), dates[1..]);
      assert AllValid(dates) <==> AllValid(dates[1..]) by {
        if AllValid(dates[1..]) {
          forall i | 0 <= i < |dates| ensures Standardize(dates[i]).Ok? {
            if i > 0 { assert dates[i] == dates[1..][i - 1]; }
          }
        }
      }
    }
  }

  /** One turn of the loop: the fold from token `i` on fails with that
      token's error, or goes on from the next token on the replaced text. */
  lemma {:induction false} ReplaceEachDateStep(text: string, dates: seq<DateToken>, i: nat)
    requires forall k :: 0 <= k < |dates| ==> WellShaped(dates[k])
    requires i < |dates|
    ensures Standardize(dates[i]).Err? ==> ReplaceEachDate(text, dates[i..]) == Err(Standardize(dates[i]).error)
    ensures Standardize(dates[i]).Ok? ==>
              ReplaceEachDate(text, dates[i..]) ==
              ReplaceEachDate(ReplaceAll(text, TokenText(dates[i]), Standardize(dates[i]).value), dates[i + 1..])
  {
    var rest := dates[i..];
    assert rest[0] == dates[i] && rest[1..] == dates[i + 1..];
  }

  /** `clean_text` as written: the three passes, then every date found in the
      result replaced in turn, everywhere, by its rewrite. */
  function CleanTextAsWritten(text: string): Result<string> {
    var prepared := Prepare(text);
    ReplaceEachDate(prepared, FindDates(prepared))
  }

  /** Replacing each date in turn keeps a normalized text normalized. */
  lemma {:induction false} ReplaceEachDateKeepsNormalized(text: string, dates: seq<DateToken>)
    requires forall i :: 0 <= i < |dates| ==> WellShaped(dates[i])
    requires Normalized(text)
    ensures ReplaceEachDate(text, dates).Ok? ==> Normalized(ReplaceEachDate(text, dates).value)
    decreases |dates|
  {
    if dates != [] && Standardize(dates[0]).Ok? {
      var std := Standardize(dates[0]).value;
      ReplaceDateKeepsNormalized(text, dates[0], std);
      ReplaceEachDateKeepsNormalized(ReplaceAll(text, TokenText(dates[0]), std), dates[1..]);
    }
  }

  /** The only error of the replace loop is the impossible-date error. */
  lemma {:induction false} ReplaceEachDateErrorKind(text: string, dates: seq<DateToken>)
    requires forall i :: 0 <= i < |dates| ==> WellShaped(dates[i])
    ensures ReplaceEachDate(text, dates).Err? ==> ReplaceEachDate(text, dates).error.InvalidDate?
    decreases |dates|
  {
    if dates != [] && Standardize(dates[0]).Ok? {
      ReplaceEachDateErrorKind(ReplaceAll(text, TokenText(dates[0]), Standardize(dates[0]).value), dates[1..]);
    }
  }

  /** What `clean_text` as written returns: a lower-case, filtered,
      single-spaced, trimmed text, or ValueError exactly when one of the dates
      found in the prepared text is no calendar date; a text without dates
      comes back as the words of its filtered, lower-cased form joined by
      single spaces. */
  lemma {:induction false} CleanTextAsWrittenSpec(text: string)
    ensures CleanTextAsWritten(text).Ok? ==> Normalized(CleanTextAsWritten(text).value)
    ensures CleanTextAsWritten(text).Err? <==> !AllValid(FindDates(Prepare(text)))
    ensures CleanTextAsWritten(text).Err? ==> CleanTextAsWritten(text).error.InvalidDate?
    ensures FindDates(Prepare(text)) == [] ==>
              CleanTextAsWritten(text) == Ok(JoinWords(Words(KeepAllowed(Lower(text)))))
  {
    var prepared := Prepare(text);
    PrepareShape(text);
    ReplaceEachDateFails(prepared, FindDates(prepared));
    ReplaceEachDateKeepsNormalized(prepared, FindDates(prepared));
    ReplaceEachDateErrorKind(prepared, FindDates(prepared));
  }

  /** `clean_text` as written, step by step: the three passes, then the loop
      over the dates. */
  method CleanTextSteps(input: string) returns (r: Result<string>)
    ensures r == CleanTextAsWritten(input)
    ensures r.Err? <==> !AllValid(FindDates(Prepare(input)))
    ensures r.Ok? ==> Normalized(r.value)
  {
    var text := Lower(input);
    text := KeepAllowed(text);
    text := Strip(SquashSpaces(text));
    PrepareShape(input);
    ReplaceEachDateFails(text, FindDates(text));
    r := ReplaceFoundDates(text);
  }

  /** The loop of `clean_text`: every date found in the text, in turn,
      replaced everywhere by its rewrite; the first impossible date raises. */
  method ReplaceFoundDates(start: string) returns (r: Result<string>)
    requires Normalized(start)
    ensures r == ReplaceEachDate(start, FindDates(start))
    ensures r.Ok? ==> Normalized(r.value)
  {
    var text := start;
    var dates := FindDates(text);
    var i := 0;
    while i < |dates|
      invariant 0 <= i <= |dates|
      invariant ReplaceEachDate(text, dates[i..]) == ReplaceEachDate(start, dates)
      invariant Normalized(text)
    {
      var standardized := Standardize(dates[i]);
      ReplaceEachDateStep(text, dates, i);
      if standardized.Err? {
        return Err(standardized.error);
      }
      ReplaceDateKeepsNormalized(text, dates[i], standardized.value);
      text := ReplaceAll(text, TokenText(dates[i]), standardized.value);
      i := i + 1;
    }
    assert dates[i..] == [];
    r := Ok(text);
  }

  // ---------------------------------------------------------------------
  // The date rewrite as intended: one left-to-right pass that replaces each
  // match by its own rewrite (`re.sub` with a callback)

  function RewriteDates(s: string): (r: Result<string>)
    decreases |s|
  {
    if s == [] then Ok("")
    else match MatchAt(s)
      case Some(d) =>
        (match Standardize(d)
         case Err(e) => Err(e)
         case Ok(std) =>
           (match RewriteDates(s[|TokenText(d)|..])
            case Ok(rest) => Ok(std + rest)
            case Err(e) => Err(e)))
      case None =>
        (match RewriteDates(s[1..])
         case Ok(rest) => Ok([s[0]] + rest)
         case Err(e) => Err(e))
  }

  /** The single pass fails exactly when one of the dates `re.findall` finds
      is no calendar date, like the loop as written. */
  lemma {:induction false} RewriteDatesFails(s: string)
    ensures RewriteDates(s).Err? <==> !AllValid(FindDates(s))
    decreases |s|
  {
    if s != [] {
      match MatchAt(s)
      case Some(d) =>
        var rest := s[|TokenText(d)|..];
        RewriteDatesFails(rest);
        assert FindDates(s) == [d] + FindDates(rest);
        AllValidCons(d, FindDates(rest));
      case None =>
        RewriteDatesFails(s[1..]);
    }
  }

  /** A list of tokens headed by `d` is all valid exactly when `d` and the rest are. */
  lemma {:induction false} AllValidCons(d: DateToken, ds: seq<DateToken>)
    requires WellShaped(d) && forall i :: 0 <= i < |ds| ==> WellShaped(ds[i])
    ensures AllValid([d] + ds) <==> Standardize(d).Ok? && AllValid(ds)
  {
    var all := [d] + ds;
    assert all[0] == d;
    forall i | 0 <= i < |all| ensures WellShaped(all[i]) {
      if i > 0 { assert all[i] == ds[i - 1]; }
    }
    if Standardize(d).Ok? && AllValid(ds) {
      forall i | 0 <= i < |all| ensures Standardize(all[i]).Ok? {
        if i > 0 { assert all[i] == ds[i - 1]; }
      }
    }
    if AllValid(all) {
      forall i | 0 <= i < |ds| ensures Standardize(ds[i]).Ok? {
        assert ds[i] == all[i + 1];
      }
    }
  }

  lemma {:induction false} TokenNoSpace(t: DateToken)
    requires WellShaped(t)
    ensures NoSpace(TokenText(t)) && TokenText(t) != []
  {
    var pat := TokenText(t);
    forall i | 0 <= i < |pat| ensures !IsSpace(pat[i]) {
      assert pat[i] == '/' || IsDigit(pat[i]);
    }
  }

  lemma {:induction false} RewriteDatesEnds(s: string)
    requires RewriteDates(s).Ok?
    ensures var r := RewriteDates(s).value;
      && (r == [] <==> s == [])
      && (s != [] ==> (IsSpace(r[0]) <==> IsSpace(s[0])))
      && (s != [] ==> (IsSpace(r[|r| - 1]) <==> IsSpace(s[|s| - 1])))
    decreases |s|
  {
    if s != [] {
      var r := RewriteDates(s).value;
      if MatchAt(s).Some? {
        var d := MatchAt(s).value;
        var pat := TokenText(d);
        var rest := s[|pat|..];
        RewriteDatesMatched(s);
        RewriteDatesEnds(rest);
        TokenNoSpace(d);
        SameEnds(pat, rest, Standardize(d).value, RewriteDates(rest).value);
      } else {
        RewriteDatesUnmatched(s);
        RewriteDatesEnds(s[1..]);
        SameEnds([s[0]], s[1..], [s[0]], RewriteDates(s[1..]).value);
      }
    }
  }

  /** One step of the single pass where a date matches. */
  lemma {:induction false} RewriteDatesMatched(s: string)
    requires s != [] && MatchAt(s).Some? && RewriteDates(s).Ok?
    ensures var d := MatchAt(s).value; var rest := s[|TokenText(d)|..];
      && s == TokenText(d) + rest
      && Standardize(d).Ok? && RewriteDates(rest).Ok?
      && RewriteDates(s).value == Standardize(d).value + RewriteDates(rest).value
  {
    var d := MatchAt(s).value;
    assert s[..|TokenText(d)|] == TokenText(d);
  }

  /** One step of the single pass where no date matches. */
  lemma {:induction false} RewriteDatesUnmatched(s: string)
    requires s != [] && MatchAt(s).None? && RewriteDates(s).Ok?
    ensures s == [s[0]] + s[1..]
    ensures RewriteDates(s[1..]).Ok? && RewriteDates(s).value == [s[0]] + RewriteDates(s[1..]).value
  {
  }

  /** Two texts that begin and end alike stay alike after each is followed
      by one of two texts that end alike. */
  lemma {:induction false} SameEnds(p: string, rest: string, q: string, tail: string)
    requires p != [] && q != []
    requires (IsSpace(p[0]) <==> IsSpace(q[0])) && (IsSpace(p[|p| - 1]) <==> IsSpace(q[|q| - 1]))
    requires rest == [] <==> tail == []
    requires rest != [] ==> (IsSpace(rest[|rest| - 1]) <==> IsSpace(tail[|tail| - 1]))
    ensures var s, r := p + rest, q + tail;
      && (IsSpace(r[0]) <==> IsSpace(s[0]))
      && (IsSpace(r[|r| - 1]) <==> IsSpace(s[|s| - 1]))
  {
    var s, r := p + rest, q + tail;
    assert s[0] == p[0] && r[0] == q[0];
    if rest == [] {
      assert s[|s| - 1] == p[|p| - 1] && r[|r| - 1] == q[|q| - 1];
    } else {
      assert s[|s| - 1] == rest[|rest| - 1] && r[|r| - 1] == tail[|tail| - 1];
    }
  }

  /** A rewritten date holds no whitespace. */
  lemma {:induction false} StandardNoSpace(t: DateToken)
    requires WellShaped(t) && Standardize(t).Ok?
    ensures NoSpace(Standardize(t).value) && Standardize(t).value != []
  {
  }

  /** A space-free block in front of a single-spaced text keeps it single-spaced. */
  lemma {:induction false} SpacedAfterBlock(p: string, tail: string)
    requires p != [] && NoSpace(p) && SingleSpaced(tail)
    ensures SingleSpaced(p + tail)
  {
    SingleSpacedConcat(p, tail);
  }

  /** A character kept in front of a text that begins like the original
      rest keeps the text single-spaced. */
  lemma {:induction false} SpacedAfterChar(c: char, rest: string, tail: string)
    requires SingleSpaced([c] + rest) && SingleSpaced(tail)
    requires rest == [] <==> tail == []
    requires rest != [] ==> (IsSpace(tail[0]) <==> IsSpace(rest[0]))
    ensures SingleSpaced([c] + tail)
  {
    SingleSpacedSlice([c] + rest, 0, 1);
    assert ([c] + rest)[..1] == [c];
    if rest != [] && IsSpace(c) {
      assert ([c] + rest)[1] == rest[0];
    }
    SingleSpacedConcat([c], tail);
  }

  lemma {:induction false} RewriteDatesSpacing(s: string)
    requires RewriteDates(s).Ok? && SingleSpaced(s)
    ensures SingleSpaced(RewriteDates(s).value)
    decreases |s|
  {
    if s != [] {
      if MatchAt(s).Some? {
        var d := MatchAt(s).value;
        var rest := s[|TokenText(d)|..];
        RewriteDatesMatched(s);
        SingleSpacedSlice(s, |TokenText(d)|, |s|);
        RewriteDatesSpacing(rest);
        StandardNoSpace(d);
        SpacedAfterBlock(Standardize(d).value, RewriteDates(rest).value);
      } else {
        RewriteDatesUnmatched(s);
        SingleSpacedSlice(s, 1, |s|);
        RewriteDatesSpacing(s[1..]);
        RewriteDatesEnds(s[1..]);
        SpacedAfterChar(s[0], s[1..], RewriteDates(s[1..]).value);
      }
    }
  }

  lemma {:induction false} RewriteDatesChars(s: string)
    requires RewriteDates(s).Ok? && OutputChars(s)
    ensures OutputChars(RewriteDates(s).value)
    decreases |s|
  {
    if s != [] {
      if MatchAt(s).Some? {
        var d := MatchAt(s).value;
        var rest := s[|TokenText(d)|..];
        RewriteDatesMatched(s);
        OutputCharsSlice(s, |TokenText(d)|, |s|);
        RewriteDatesChars(rest);
        OutputCharsConcat(Standardize(d).value, RewriteDates(rest).value);
      } else {
        RewriteDatesUnmatched(s);
        OutputCharsSlice(s, 1, |s|);
        RewriteDatesChars(s[1..]);
        OutputCharsConcat([s[0]], RewriteDates(s[1..]).value);
      }
    }
  }

  /** `clean_text` with the date rewrite done in a single pass: lower-case,
      filtered, single-spaced and trimmed, each date rewritten; ValueError
      exactly when a found date is no calendar date. */
  function CleanText(text: string): Result<string> {
    RewriteDates(Prepare(text))
  }

  /** What `clean_text` with the single-pass rewrite returns: a lower-case,
      filtered, single-spaced, trimmed text, or ValueError exactly when one of
      the dates found in the prepared text is no calendar date. */
  lemma {:induction false} CleanTextSpec(text: string)
    ensures CleanText(text).Ok? ==> Normalized(CleanText(text).value)
    ensures CleanText(text).Err? <==> !AllValid(FindDates(Prepare(text)))
    ensures CleanText(text).Err? ==> CleanText(text).error.InvalidDate?
    ensures FindDates(Prepare(text)) == [] ==> CleanText(text) == Ok(JoinWords(Words(KeepAllowed(Lower(text)))))
  {
    var prepared := Prepare(text);
    PrepareShape(text);
    RewriteDatesFails(prepared);
    RewriteDatesNoDates(prepared);
    if RewriteDates(prepared).Ok? {
      RewriteDatesEnds(prepared);
      RewriteDatesSpacing(prepared);
      RewriteDatesChars(prepared);
    } else {
      RewriteDatesErrorKind(prepared);
    }
  }

  /** A text in which `re.findall` finds no date is left as it is. */
  lemma {:induction false} RewriteDatesNoDates(s: string)
    ensures FindDates(s) == [] ==> RewriteDates(s) == Ok(s)
    decreases |s|
  {
    if s != [] && MatchAt(s).None? {
      RewriteDatesNoDates(s[1..]);
      assert s == [s[0]] + s[1..];
    }
  }

  lemma {:induction false} RewriteDatesErrorKind(s: string)
    ensures RewriteDates(s).Err? ==> RewriteDates(s).error.InvalidDate?
    decreases |s|
  {
    if s != [] {
      match MatchAt(s)
      case Some(d) => RewriteDatesErrorKind(s[|TokenText(d)|..]);
      case None => RewriteDatesErrorKind(s[1..]);
    }
  }

  /** A date token is rewritten to its own `YYYY-MM-DD` form whatever follows
      it, and the pass goes on right after it. */
  lemma {:induction false} RewriteDatesToken(d: DateToken, rest: string)
    requires WellShaped(d) && Standardize(d).Ok?
    ensures RewriteDates(TokenText(d) + rest) ==
              match RewriteDates(rest)
              case Ok(tail) => Ok(Standardize(d).value + tail)
              case Err(e) => Err(e)
  {
    MatchToken(d, rest);
    assert (TokenText(d) + rest)[|TokenText(d)|..] == rest;
  }

  /** A character that cannot start a date is kept as it is. */
  lemma {:induction false} RewriteDatesKeeps(c: char, rest: string)
    requires !IsDigit(c)
    ensures RewriteDates([c] + rest) ==
              match RewriteDates(rest)
              case Ok(tail) => Ok([c] + tail)
              case Err(e) => Err(e)
  {
    assert ([c] + rest)[1..] == rest;
  }

  // ---------------------------------------------------------------------
  // Where the two rewrites part ways

  lemma {:induction false} SquashSpacesIdentity(s: string)
    requires SingleSpaced(s)
    ensures SquashSpaces(s) == s
    decreases |s|
  {
    if s != [] {
      var rest := s[1..];
      SingleSpacedSlice(s, 1, |s|);
      SquashSpacesIdentity(rest);
      assert s == [s[0]] + rest;
      if IsSpace(s[0]) {
        assert s[0] == ' ';
        if rest != [] {
          assert rest[0] == s[1];
        }
        assert SkipSpaces(rest) == rest;
        assert SkipSpaces(s) == rest;
        assert SquashSpaces(s) == [' '] + SquashSpaces(rest);
      } else {
        assert SquashSpaces(s) == [s[0]] + SquashSpaces(rest);
      }
    }
  }

  /** On a text that is already lower-case, filtered and collapsed, the passes
      before the date rewrite change nothing. */
  lemma {:induction false} PrepareIdentity(s: string)
    requires Collapsed(s)
    requires forall i :: 0 <= i < |s| ==> IsAllowed(s[i]) && !IsUpper(s[i])
    ensures Prepare(s) == s
  {
    assert Lower(s) == s;
    SquashSpacesIdentity(s);
  }

  lemma {:induction false} FindDatesToken(d: DateToken, rest: string)
    requires WellShaped(d)
    ensures FindDates(TokenText(d) + rest) == [d] + FindDates(rest)
  {
    MatchToken(d, rest);
    assert (TokenText(d) + rest)[|TokenText(d)|..] == rest;
  }

  lemma {:induction false} FindDatesSkip(c: char, rest: string)
    requires !IsDigit(c)
    ensures FindDates([c] + rest) == FindDates(rest)
  {
    assert ([c] + rest)[1..] == rest;
  }

  /** A text in which some character of the pattern never occurs is left as it is. */
  lemma {:induction false} ReplaceAllAbsent(s: string, pat: string, rep: string, c: char)
    requires pat != [] && c in pat && c !in s
    ensures ReplaceAll(s, pat, rep) == s
    decreases |s|
  {
    if |s| >= |pat| {
      if s[..|pat|] == pat {
        assert false;
      }
      ReplaceAllAbsent(s[1..], pat, rep, c);
      assert s == [s[0]] + s[1..];
    }
  }

  /** `s.replace(pat, rep)` on a text that starts with `pat`. */
  lemma {:induction false} ReplaceAllHead(pat: string, rest: string, rep: string)
    requires pat != []
    ensures ReplaceAll(pat + rest, pat, rep) == rep + ReplaceAll(rest, pat, rep)
  {
    assert (pat + rest)[..|pat|] == pat;
    assert (pat + rest)[|pat|..] == rest;
  }

  /** `s.replace(pat, rep)` on a text that does not start with `pat`. */
  lemma {:induction false} ReplaceAllSkip(c: char, rest: string, pat: string, rep: string)
    requires pat != [] && !StartsWith([c] + rest, pat)
    ensures ReplaceAll([c] + rest, pat, rep) == [c] + ReplaceAll(rest, pat, rep)
  {
    assert ([c] + rest)[1..] == rest;
  }

  /** A digit followed by a date never starts with that date: where the date
      has its first slash, the shifted text still has a digit. */
  lemma {:induction false} ShiftedTokenNoMatch(c: char, a: DateToken, rest: string)
    requires WellShaped(a) && IsDigit(c)
    ensures !StartsWith([c] + TokenText(a) + rest, TokenText(a))
  {
    var s := [c] + TokenText(a) + rest;
    var k := |a.month|;
    assert TokenText(a)[k] == '/';
    assert s[k] == TokenText(a)[k - 1] == a.month[k - 1];
  }

  /** The rewritten dates contain no slash. */
  lemma {:induction false} StandardNoSlash(t: DateToken)
    requires WellShaped(t) && Standardize(t).Ok?
    ensures '/' !in Standardize(t).value
  {
  }

  /** A token is made of digits and slashes only. */
  lemma {:induction false} TokenChars(t: DateToken)
    requires WellShaped(t)
    ensures forall i :: 0 <= i < |TokenText(t)| ==> IsDigit(TokenText(t)[i]) || TokenText(t)[i] == '/'
  {
  }

  /** Two dates separated by one space pass the steps before the rewrite unchanged. */
  lemma {:induction false} PrepareTwoTokens(a: DateToken, b: DateToken)
    requires WellShaped(a) && WellShaped(b)
    ensures Prepare(TokenText(a) + " " + TokenText(b)) == TokenText(a) + " " + TokenText(b)
  {
    var s := TokenText(a) + " " + TokenText(b);
    TokenChars(a);
    TokenChars(b);
    forall i | 0 <= i < |s| ensures IsDigit(s[i]) || s[i] == '/' || (s[i] == ' ' && i == |TokenText(a)|) {
      if i < |TokenText(a)| { assert s[i] == TokenText(a)[i]; }
      else if i > |TokenText(a)| { assert s[i] == TokenText(b)[i - |TokenText(a)| - 1]; }
    }
    PrepareIdentity(s);
  }

  lemma {:induction false} ReplaceEachDatePair(text: string, a: DateToken, b: DateToken)
    requires WellShaped(a) && WellShaped(b)
    requires Standardize(a).Ok? && Standardize(b).Ok?
    ensures ReplaceEachDate(text, [a, b]) ==
              Ok(ReplaceAll(ReplaceAll(text, TokenText(a), Standardize(a).value), TokenText(b), Standardize(b).value))
  {
    var r1 := ReplaceAll(text, TokenText(a), Standardize(a).value);
    var r2 := ReplaceAll(r1, TokenText(b), Standardize(b).value);
    assert [a, b][1..] == [b];
    assert [b][1..] == [];
    assert ReplaceEachDate(r1, [b]) == ReplaceEachDate(r2, []);
    assert ReplaceEachDate(text, [a, b]) == ReplaceEachDate(r1, [b]);
  }

  lemma {:induction false} FindTwoTokens(a: DateToken, b: DateToken)
    requires WellShaped(a) && WellShaped(b)
    ensures FindDates(TokenText(a) + " " + TokenText(b)) == [a, b]
  {
    var ta, tb := TokenText(a), TokenText(b);
    var rest := " " + tb;
    FindDatesToken(b, "");
    assert tb + "" == tb;
    assert FindDates(tb) == [b];
    FindDatesSkip(' ', tb);
    assert FindDates(rest) == [b];
    FindDatesToken(a, rest);
    assert ta + " " + tb == ta + rest;
  }

  /** Replacing a date in a digit-prefixed copy of itself rewrites the copy
      behind the digit. */
  lemma {:induction false} ReplaceBehindDigit(a: DateToken, c: char, sa: string)
    requires WellShaped(a) && IsDigit(c)
    ensures ReplaceAll([c] + TokenText(a), TokenText(a), sa) == [c] + sa
  {
    var ta := TokenText(a);
    ShiftedTokenNoMatch(c, a, "");
    assert [c] + ta + "" == [c] + ta;
    ReplaceAllSkip(c, ta, ta, sa);
    ReplaceAllHead(ta, "", sa);
    assert ta + "" == ta;
    assert ReplaceAll("", ta, sa) == "";
  }

  /** `s.replace(pat, rep)` on `pat`, a space, then more text, when `pat`
      does not start with a space. */
  lemma {:induction false} ReplaceAllHeadSpace(pat: string, rest: string, rep: string)
    requires pat != [] && pat[0] != ' '
    ensures ReplaceAll(pat + " " + rest, pat, rep) == rep + " " + ReplaceAll(rest, pat, rep)
  {
    assert pat + " " + rest == pat + (" " + rest);
    ReplaceAllHead(pat, " " + rest, rep);
    assert !StartsWith(" " + rest, pat);
    ReplaceAllSkip(' ', rest, pat, rep);
  }

  /** Replacing a date in front of a digit-prefixed copy of itself rewrites both. */
  lemma {:induction false} ReplaceShifted(a: DateToken, c: char, sa: string)
    requires WellShaped(a) && IsDigit(c)
    ensures var ta := TokenText(a);
      ReplaceAll(ta + " " + ([c] + ta), ta, sa) == sa + " " + [c] + sa
  {
    TokenNoSpace(a);
    ReplaceAllHeadSpace(TokenText(a), [c] + TokenText(a), sa);
    ReplaceBehindDigit(a, c, sa);
  }

  /** Two dates in a row where the second is a digit followed by the first:
      the loop as written rewrites the first date inside the second too, so
      the second is never rewritten and keeps its leading digit. */
  lemma {:induction false} AsWrittenRewritesInsideLaterDate(a: DateToken, b: DateToken, c: char)
    requires WellShaped(a) && WellShaped(b) && IsDigit(c)
    requires TokenText(b) == [c] + TokenText(a)
    requires Standardize(a).Ok? && Standardize(b).Ok?
    ensures var s := TokenText(a) + " " + TokenText(b);
      ReplaceEachDate(Prepare(s), FindDates(Prepare(s))) ==
        Ok(Standardize(a).value + " " + [c] + Standardize(a).value)
  {
    var ta, tb := TokenText(a), TokenText(b);
    var sa, sb := Standardize(a).value, Standardize(b).value;
    var s := ta + " " + tb;
    PrepareTwoTokens(a, b);
    FindTwoTokens(a, b);
    ReplaceEachDatePair(s, a, b);
    ReplaceShifted(a, c, sa);
    assert s == ta + " " + ([c] + ta);
    var mid := sa + " " + [c] + sa;
    assert ReplaceAll(s, ta, sa) == mid;
    ShiftedNoSlash(a, c);
    assert tb[|b.month|] == '/';
    ReplaceAllAbsent(mid, tb, sb, '/');
    assert ReplaceEachDate(s, [a, b]) == Ok(mid);
  }

  /** The first date's rewrite, a space, a digit and the rewrite again hold no slash. */
  lemma {:induction false} ShiftedNoSlash(a: DateToken, c: char)
    requires WellShaped(a) && Standardize(a).Ok? && IsDigit(c)
    ensures '/' !in Standardize(a).value + " " + [c] + Standardize(a).value
  {
    var sa := Standardize(a).value;
    StandardNoSlash(a);
    var mid := sa + " " + [c] + sa;
    forall i | 0 <= i < |mid| ensures mid[i] != '/' {
      if i < |sa| { assert mid[i] == sa[i]; }
      else if i > |sa| + 1 { assert mid[i] == sa[i - |sa| - 2]; }
    }
  }

  lemma {:induction false} RewriteTwoTokens(a: DateToken, b: DateToken)
    requires WellShaped(a) && WellShaped(b)
    requires Standardize(a).Ok? && Standardize(b).Ok?
    ensures RewriteDates(TokenText(a) + " " + TokenText(b)) ==
              Ok(Standardize(a).value + " " + Standardize(b).value)
  {
    var ta, tb := TokenText(a), TokenText(b);
    var sa, sb := Standardize(a).value, Standardize(b).value;
    RewriteSpaceToken(b);
    RewriteTokenThen(a, " " + tb, " " + sb);
    assert ta + " " + tb == ta + (" " + tb);
    assert sa + " " + sb == sa + (" " + sb);
  }

  /** A space and then a valid token rewrite to the space and its rewrite. */
  lemma {:induction false} RewriteSpaceToken(b: DateToken)
    requires WellShaped(b) && Standardize(b).Ok?
    ensures RewriteDates(" " + TokenText(b)) == Ok(" " + Standardize(b).value)
  {
    var tb, sb := TokenText(b), Standardize(b).value;
    assert RewriteDates("") == Ok("");
    RewriteTokenThen(b, "", "");
    assert tb + "" == tb && sb + "" == sb;
    RewriteSpaceThen(tb, sb);
  }

  /** A leading valid token followed by a text that rewrites to `tail`. */
  lemma {:induction false} RewriteTokenThen(d: DateToken, rest: string, tail: string)
    requires WellShaped(d) && Standardize(d).Ok? && RewriteDates(rest) == Ok(tail)
    ensures RewriteDates(TokenText(d) + rest) == Ok(Standardize(d).value + tail)
  {
    RewriteDatesToken(d, rest);
  }

  /** A leading space followed by a text that rewrites to `tail`. */
  lemma {:induction false} RewriteSpaceThen(rest: string, tail: string)
    requires RewriteDates(rest) == Ok(tail)
    ensures RewriteDates(" " + rest) == Ok(" " + tail)
  {
    RewriteDatesKeeps(' ', rest);
  }

  /** The single pass rewrites both dates. */
  lemma {:induction false} CleanTextRewritesBothDates(a: DateToken, b: DateToken)
    requires WellShaped(a) && WellShaped(b)
    requires Standardize(a).Ok? && Standardize(b).Ok?
    ensures CleanText(TokenText(a) + " " + TokenText(b)) ==
              Ok(Standardize(a).value + " " + Standardize(b).value)
  {
    var s := TokenText(a) + " " + TokenText(b);
    PrepareTwoTokens(a, b);
    RewriteTwoTokens(a, b);
    assert CleanText(s) == RewriteDates(Prepare(s));
  }

  const FIRST_DATE := DateToken("1", "2", "2020")
  const SECOND_DATE := DateToken("11", "2", "2020")

  /** The text that shows the discrepancy: a date whose text ends another
      date found later. */
  function TwoDates(): string {
    TokenText(FIRST_DATE) + " " + TokenText(SECOND_DATE)
  }

  lemma {:induction false} ValueOfDigits()
    ensures Value("1") == 1 && Value("2") == 2 && Value("11") == 11 && Value("2020") == 2020
  {
    assert "11"[..1] == "1";
    assert "2020"[..3] == "202";
    assert "202"[..2] == "20";
    assert "20"[..1] == "2";
  }

  lemma {:induction false} DigitsOfValues()
    ensures Digits(2020, 4) == "2020"
    ensures Digits(1, 2) == "01" && Digits(2, 2) == "02" && Digits(11, 2) == "11"
  {
    assert Digits(20, 2) == "20";
    assert Digits(202, 3) == "202";
  }

  lemma {:induction false} DatesWellShaped()
    ensures WellShaped(FIRST_DATE) && WellShaped(SECOND_DATE)
  {
    assert AllDigits("2020") by {
      forall i | 0 <= i < 4 ensures IsDigit("2020"[i]) {
        assert i == 0 || i == 1 || i == 2 || i == 3;
      }
    }
  }

  /** A well-shaped token whose numbers form a calendar date rewrites to
      their zero-padded forms. */
  lemma {:induction false} StandardizeValues(t: DateToken, y: nat, m: nat, d: nat)
    requires WellShaped(t) && Value(t.year) == y && Value(t.month) == m && Value(t.day) == d
    requires ValidDate(y, m, d)
    ensures Standardize(t) == Ok(Digits(y, 4) + "-" + Digits(m, 2) + "-" + Digits(d, 2))
  {
  }

  lemma {:induction false} StandardizeFirstDate()
    ensures Standardize(FIRST_DATE) == Ok("2020-01-02")
  {
    DatesWellShaped();
    ValueOfDigits();
    StandardizeValues(FIRST_DATE, 2020, 1, 2);
    FirstDateText();
  }

  lemma {:induction false} FirstDateText()
    ensures Digits(2020, 4) + "-" + Digits(1, 2) + "-" + Digits(2, 2) == "2020-01-02"
  {
    DigitsOfValues();
    assert "2020" + "-" + "01" + "-" + "02" == "2020-01-02";
  }

  lemma {:induction false} StandardizeSecondDate()
    ensures Standardize(SECOND_DATE) == Ok("2020-11-02")
  {
    DatesWellShaped();
    ValueOfDigits();
    StandardizeValues(SECOND_DATE, 2020, 11, 2);
    SecondDateText();
  }

  lemma {:induction false} SecondDateText()
    ensures Digits(2020, 4) + "-" + Digits(11, 2) + "-" + Digits(2, 2) == "2020-11-02"
  {
    DigitsOfValues();
    assert "2020" + "-" + "11" + "-" + "02" == "2020-11-02";
  }

  /** `"1/2/2020 11/2/2020"` meets the premises of both lemmas above with the
      digit `1`: by `AsWrittenRewritesInsideLaterDate` the loop as written
      returns `"2020-01-02 12020-01-02"` for it, and by
      `CleanTextRewritesBothDates` the single pass returns
      `"2020-01-02 2020-11-02"`. */
  lemma {:induction false} TwoDatesWitness()
    ensures TwoDates() == TokenText(FIRST_DATE) + " " + TokenText(SECOND_DATE) == "1/2/2020 11/2/2020"
    ensures WellShaped(FIRST_DATE) && WellShaped(SECOND_DATE)
    ensures TokenText(SECOND_DATE) == ['1'] + TokenText(FIRST_DATE)
    ensures Standardize(FIRST_DATE) == Ok("2020-01-02")
    ensures Standardize(SECOND_DATE) == Ok("2020-11-02")
  {
    TwoDatesText();
    StandardizeFirstDate();
    StandardizeSecondDate();
  }

  /** The texts of the two tokens. */
  lemma {:induction false} TwoDatesText()
    ensures TokenText(FIRST_DATE) == "1/2/2020"
    ensures TokenText(SECOND_DATE) == "11/2/2020"
    ensures TwoDates() == "1/2/2020 11/2/2020"
    ensures TokenText(SECOND_DATE) == ['1'] + TokenText(FIRST_DATE)
  {
  }
}
