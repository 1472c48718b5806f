/** Reading a command's output off a terminal WebSocket (internal/hermes/client.go): decoding frames,
    finding the end marker, stripping terminal control sequences and cleaning lines. Characters stand
    for bytes or for the characters of a decoded string. */
module Tty {
  import opened GoText
  import opened RequestIds

  const ESC: char := '\U{1b}'

  // ----- the pattern ESC [ [0-9;?]* [ -/]* [@-~] -----

  predicate IsParam(c: char) { '0' <= c <= '9' || c == ';' || c == '?' }
  predicate IsIntermediate(c: char) { ' ' <= c <= '/' }
  predicate IsFinal(c: char) { '@' <= c <= '~' }

  /** What the pattern describes: a control sequence in the accepted subset of ECMA-48, section 5.4. */
  ghost predicate IsControl(s: string) {
    exists i, j :: ControlParts(s, i, j)
  }

  ghost predicate ControlParts(s: string, i: int, j: int) {
    && 2 <= i <= j == |s| - 1 && s[0] == ESC && s[1] == '['
    && (forall k :: 2 <= k < i ==> '0' <= s[k] <= '9' || s[k] == ';' || s[k] == '?')
    && (forall k :: i <= k < j ==> ' ' <= s[k] <= '/')
    && '@' <= s[j] <= '~'
  }

  function SpanParams(s: string, i: nat): (j: nat)
    requires i <= |s|
    ensures i <= j <= |s| && (forall k :: i <= k < j ==> IsParam(s[k])) && (j < |s| ==> !IsParam(s[j]))
    decreases |s| - i
  {
    if i < |s| && IsParam(s[i]) then SpanParams(s, i + 1) else i
  }

  function SpanIntermediates(s: string, i: nat): (j: nat)
    requires i <= |s|
    ensures i <= j <= |s| && (forall k :: i <= k < j ==> IsIntermediate(s[k])) && (j < |s| ==> !IsIntermediate(s[j]))
    decreases |s| - i
  {
    if i < |s| && IsIntermediate(s[i]) then SpanIntermediates(s, i + 1) else i
  }

  /** The length of the match at the start of a text, 0 for none: a scanner that never looks back. */
  function MatchLength(s: string): (n: nat)
    ensures n <= |s|
  {
    if |s| < 2 || s[0] != ESC || s[1] != '[' then 0
    else
      var j := SpanIntermediates(s, SpanParams(s, 2));
      if j < |s| && IsFinal(s[j]) then j + 1 else 0
  }

  /** The scanner is the pattern: a prefix is a control sequence exactly when it is the one matched. */
  lemma MatchIsPattern(s: string, n: nat)
    requires n <= |s|
    ensures IsControl(s[..n]) <==> n > 0 && n == MatchLength(s)
  {
    if |s| >= 2 && s[0] == ESC && s[1] == '[' {
      var i := SpanParams(s, 2);
      var j := SpanIntermediates(s, i);
      if n > 0 && n == MatchLength(s) {
        assert ControlParts(s[..n], i, j);
      }
      if IsControl(s[..n]) {
        var a, b :| ControlParts(s[..n], a, b);
        assert !IsParam(s[a]) && !IsIntermediate(s[b]) by { assert s[..n][a] == s[a] && s[..n][b] == s[b]; }
        assert forall k :: 2 <= k < a ==> IsParam(s[k]) by {
          forall k | 2 <= k < a ensures IsParam(s[k]) { assert s[..n][k] == s[k]; }
        }
        assert a == i;
        assert forall k :: i <= k < b ==> IsIntermediate(s[k]) by {
          forall k | i <= k < b ensures IsIntermediate(s[k]) { assert s[..n][k] == s[k]; }
        }
        assert b == j;
      }
    }
  }

  /** ansiRegexp.ReplaceAllString(s, ""): leftmost matches, one after the other. */
  function Strip(s: string): string
    decreases |s|
  {
    if s == [] then []
    else if MatchLength(s) > 0 then Strip(s[MatchLength(s)..])
    else [s[0]] + Strip(s[1..])
  }

  // ----- stripping is exact on well-formed streams -----

  datatype Segment = Plain(text: string) | Control(code: string)

  ghost predicate WellFormed(segs: seq<Segment>) {
    forall i :: 0 <= i < |segs| ==>
      match segs[i] case Plain(t) => ESC !in t case Control(c) => IsControl(c)
  }

  function Stream(segs: seq<Segment>): string {
    if segs == [] then [] else (if segs[0].Plain? then segs[0].text else segs[0].code) + Stream(segs[1..])
  }

  function PlainText(segs: seq<Segment>): string {
    if segs == [] then [] else (if segs[0].Plain? then segs[0].text else []) + PlainText(segs[1..])
  }

  lemma NoMatch(s: string)
    requires s != [] && s[0] != ESC
    ensures MatchLength(s) == 0
  {}

  lemma StripStep(s: string)
    requires s != [] && MatchLength(s) == 0
    ensures Strip(s) == [s[0]] + Strip(s[1..])
  {}

  lemma {:induction false} StripPlain(t: string, rest: string)
    requires ESC !in t
    ensures Strip(t + rest) == t + Strip(rest)
  {
    if t == [] {
      assert t + rest == rest;
    } else {
      NoMatch(t + rest);
      StripStep(t + rest);
      hide MatchLength, Strip;
      assert (t + rest)[1..] == t[1..] + rest;
      StripPlain(t[1..], rest);
      assert [t[0]] + (t[1..] + Strip(rest)) == ([t[0]] + t[1..]) + Strip(rest);
      assert t == [t[0]] + t[1..];
    }
  }

  lemma StripControl(c: string, rest: string)
    requires IsControl(c)
    ensures Strip(c + rest) == Strip(rest)
  {
    var s := c + rest;
    assert s[..|c|] == c && s[|c|..] == rest;
    MatchIsPattern(s, |c|);
  }

  /** Whatever mixture of escape-free text and accepted control sequences arrives, exactly the text is
      left, byte for byte. */
  lemma {:induction false} StripIsExact(segs: seq<Segment>)
    requires WellFormed(segs)
    ensures Strip(Stream(segs)) == PlainText(segs)
  {
    if segs != [] {
      StripIsExact(segs[1..]);
      if segs[0].Plain? {
        StripPlain(segs[0].text, Stream(segs[1..]));
      } else {
        StripControl(segs[0].code, Stream(segs[1..]));
      }
    }
  }

  // ----- when stripping again changes nothing -----

  /** No control sequence anywhere in the text. */
  ghost predicate Quiet(s: string) {
    forall i, j :: 0 <= i <= j <= |s| ==> !IsControl(s[i..j])
  }

  lemma QuietWindow(s: string, i: nat, j: nat)
    requires i <= j <= |s| && Quiet(s)
    ensures Quiet(s[i..j])
  {
    forall a, b | 0 <= a <= b <= j - i ensures !IsControl(s[i..j][a..b]) {
      SliceSlice(s, i, j, a, b);
    }
  }

  lemma {:induction false} StripShrinks(s: string)
    ensures |Strip(s)| <= |s| && (Strip(s) != s ==> |Strip(s)| < |s|)
    ensures Strip(s) == s ==> forall k :: 0 <= k < |s| ==> MatchLength(s[k..]) == 0
    decreases |s|
  {
    if s != [] {
      if MatchLength(s) > 0 {
        StripShrinks(s[MatchLength(s)..]);
      } else {
        StripShrinks(s[1..]);
        if Strip(s) == s {
          assert Strip(s[1..]) == Strip(s)[1..] == s[1..];
          forall k | 0 <= k < |s| ensures MatchLength(s[k..]) == 0 {
            if k == 0 { assert s[0..] == s; } else { assert s[k..] == s[1..][k - 1..]; }
          }
        }
      }
    }
  }

  lemma {:induction false} StripQuiet(s: string)
    requires Quiet(s)
    ensures Strip(s) == s
    decreases |s|
  {
    if s != [] {
      MatchIsPattern(s, MatchLength(s));
      assert s[0..MatchLength(s)] == s[..MatchLength(s)];
      assert s[1..|s|] == s[1..];
      QuietWindow(s, 1, |s|);
      StripQuiet(s[1..]);
    }
  }

  /** One pass is enough exactly when it leaves no control sequence. */
  lemma StripFixedIffQuiet(s: string)
    ensures Strip(s) == s <==> Quiet(s)
    ensures Strip(Strip(s)) == Strip(s) <==> Quiet(Strip(s))
  {
    StripFixed(s);
    StripFixed(Strip(s));
  }

  lemma StripFixed(s: string)
    ensures Strip(s) == s <==> Quiet(s)
  {
    if Quiet(s) { StripQuiet(s); }
    if Strip(s) == s {
      StripShrinks(s);
      forall i, j | 0 <= i <= j <= |s| ensures !IsControl(s[i..j]) {
        if i < |s| {
          assert s[i..][..j - i] == s[i..j];
          MatchIsPattern(s[i..], j - i);
        }
      }
    }
  }

  /** A removed sequence can bring the parts of another one together. */
  lemma StripNotIdempotent()
    ensures var s := [ESC, ESC, '[', 'm', '[', 'm'];
      Strip(s) == [ESC, '[', 'm'] && Strip(Strip(s)) == []
  {
    var s := [ESC, ESC, '[', 'm', '[', 'm'];
    assert s[1..] == [ESC, '[', 'm', '[', 'm'];
    assert IsControl([ESC, '[', 'm']) by { assert ControlParts([ESC, '[', 'm'], 2, 2); }
    StripControl([ESC, '[', 'm'], ['[', 'm']);
    assert s[1..] == [ESC, '[', 'm'] + ['[', 'm'];
    StripPlain(['[', 'm'], []);
    assert ['[', 'm'] + [] == ['[', 'm'];
    StripControl([ESC, '[', 'm'], []);
    assert [ESC, '[', 'm'] + [] == [ESC, '[', 'm'];
  }

  /** Every escape character of the text begins an accepted control sequence. */
  ghost predicate IsStream(s: string) { exists segs :: WellFormed(segs) && Stream(segs) == s }

  lemma {:induction false} Segments(s: string) returns (segs: seq<Segment>)
    requires ESC !in Strip(s)
    ensures WellFormed(segs) && Stream(segs) == s
    decreases |s|
  {
    hide WellFormed, Stream, MatchLength;
    if s == [] {
      segs := [];
      Emptied();
    } else {
      var n := if MatchLength(s) > 0 then MatchLength(s) else 1;
      assert s == s[..n] + s[n..];
      MatchIsPattern(s, MatchLength(s));
      var rest := Segments(s[n..]);
      segs := [if MatchLength(s) > 0 then Control(s[..n]) else Plain(s[..n])] + rest;
      Prepended(segs[0], rest);
    }
  }

  lemma Emptied()
    ensures WellFormed([]) && Stream([]) == []
  {}

  lemma Prepended(x: Segment, rest: seq<Segment>)
    ensures Stream([x] + rest) == (if x.Plain? then x.text else x.code) + Stream(rest)
    ensures WellFormed(rest) && (if x.Plain? then ESC !in x.text else IsControl(x.code)) ==> WellFormed([x] + rest)
  {
    assert ([x] + rest)[1..] == rest;
  }

  lemma {:induction false} PlainTextIsFree(segs: seq<Segment>)
    requires WellFormed(segs)
    ensures ESC !in PlainText(segs)
  {
    if segs != [] { PlainTextIsFree(segs[1..]); }
  }

  /** Stripping leaves no escape character exactly when the input has none outside accepted sequences. */
  lemma NoEscapeLeftIff(s: string)
    ensures ESC !in Strip(s) <==> IsStream(s)
  {
    if ESC !in Strip(s) { var segs := Segments(s); }
    if IsStream(s) {
      var segs :| WellFormed(segs) && Stream(segs) == s;
      StripIsExact(segs);
      PlainTextIsFree(segs);
    }
  }

  /** And on such an input one pass is enough. */
  lemma StreamNeedsOnePass(s: string)
    requires IsStream(s)
    ensures Quiet(Strip(s)) && Strip(Strip(s)) == Strip(s)
  {
    NoEscapeLeftIff(s);
    var t := Strip(s);
    forall i, j | 0 <= i <= j <= |t| ensures !IsControl(t[i..j]) { FreeWindow(t, i, j); }
    StripFixedIffQuiet(s);
  }

  lemma FreeWindow(t: string, i: nat, j: nat)
    requires ESC !in t && i <= j <= |t|
    ensures !IsControl(t[i..j])
  {
    var w := t[i..j];
    assert w != [] ==> w[0] == t[i];
  }

  // ----- cleaning lines -----

  /** strings.ReplaceAll(raw, "\r", "\n"). */
  function BreakReturns(raw: string): (r: string)
    ensures |r| == |raw| && '\r' !in r
  {
    seq(|raw|, i requires 0 <= i < |raw| => if raw[i] == '\r' then '\n' else raw[i])
  }

  predicate Kept(line: string, marker: string) {
    var t := TrimSpace(line);
    t != "" && !Contains(t, marker + ":") && !HasPrefix(t, "/hermes.sh")
  }

  /** The kept lines, trimmed, in order. */
  function CleanLines(lines: seq<string>, marker: string): seq<string> {
    if lines == [] then []
    else (if Kept(lines[0], marker) then [TrimSpace(lines[0])] else []) + CleanLines(lines[1..], marker)
  }

  function LinesOf(raw: string): seq<string> { Split(Strip(BreakReturns(raw)), '\n') }

  function Cleanup(raw: string, marker: string): string {
    TrimSpace(Join(CleanLines(LinesOf(raw), marker), '\n'))
  }

  method CleanupTTYOutput(raw: string, marker: string) returns (text: string)
    ensures text == Cleanup(raw, marker)
  {
    hide Split, Strip, BreakReturns, TrimSpace, Contains, HasPrefix, Join;
    var lines := Split(Strip(BreakReturns(raw)), '\n');
    var out := [];
    for i := 0 to |lines|
      invariant out + CleanLines(lines[i..], marker) == CleanLines(lines, marker)
    {
      var trimmed := TrimSpace(lines[i]);
      ghost var rest := CleanLines(lines[i + 1..], marker);
      assert lines[i..][0] == lines[i] && lines[i..][1..] == lines[i + 1..];
      if trimmed == "" { continue; }
      if Contains(trimmed, marker + ":") { continue; }
      if HasPrefix(trimmed, "/hermes.sh") { continue; }
      assert out + ([trimmed] + rest) == (out + [trimmed]) + rest;
      out := out + [trimmed];
    }
    assert out + [] == out;
    text := TrimSpace(Join(out, '\n'));
  }

  ghost predicate AllKept(ls: seq<string>, marker: string) {
    forall i :: 0 <= i < |ls| ==> Kept(ls[i], marker) && TrimSpace(ls[i]) == ls[i] && '\n' !in ls[i] && '\r' !in ls[i]
  }

  lemma {:induction false} CleanLinesAreKept(lines: seq<string>, marker: string)
    requires forall i :: 0 <= i < |lines| ==> '\n' !in lines[i] && '\r' !in lines[i]
    ensures AllKept(CleanLines(lines, marker), marker)
  {
    if lines != [] {
      CleanLinesAreKept(lines[1..], marker);
      TrimSpaceIdempotent(lines[0]);
    }
  }

  lemma {:induction false} CleanKeptLines(ls: seq<string>, marker: string)
    requires AllKept(ls, marker)
    ensures CleanLines(ls, marker) == ls
  {
    if ls != [] { CleanKeptLines(ls[1..], marker); }
  }

  /** How many of the first n lines are kept. */
  function KeptBefore(lines: seq<string>, marker: string, n: nat): nat
    requires n <= |lines|
  {
    if n == 0 then 0 else KeptBefore(lines, marker, n - 1) + (if Kept(lines[n - 1], marker) then 1 else 0)
  }

  /** The output of the first n lines is the matching prefix of the whole output: order is kept. */
  lemma {:induction false} CleanLinesInOrder(lines: seq<string>, marker: string, n: nat)
    requires n <= |lines|
    ensures |CleanLines(lines[..n], marker)| == KeptBefore(lines, marker, n) <= |CleanLines(lines, marker)|
    ensures CleanLines(lines[..n], marker) == CleanLines(lines, marker)[..KeptBefore(lines, marker, n)]
  {
    CleanLinesConcat(lines[..n], lines[n..], marker);
    assert lines[..n] + lines[n..] == lines;
    if n > 0 {
      CleanLinesInOrder(lines, marker, n - 1);
      CleanLinesConcat(lines[..n - 1], [lines[n - 1]], marker);
      assert lines[..n - 1] + [lines[n - 1]] == lines[..n];
      assert [lines[n - 1]][1..] == [];
    }
  }

  lemma {:induction false} CleanLinesConcat(a: seq<string>, b: seq<string>, marker: string)
    ensures CleanLines(a + b, marker) == CleanLines(a, marker) + CleanLines(b, marker)
  {
    hide Kept, TrimSpace;
    if a == [] {
      assert a + b == b;
    } else {
      assert (a + b)[0] == a[0] && (a + b)[1..] == a[1..] + b;
      CleanLinesConcat(a[1..], b, marker);
    }
  }

  /** An input line reaches the output exactly when it is kept, at the place its kept predecessors leave it. */
  lemma KeptLineAppears(lines: seq<string>, marker: string, n: nat)
    requires n < |lines| && Kept(lines[n], marker)
    ensures KeptBefore(lines, marker, n) < |CleanLines(lines, marker)|
    ensures CleanLines(lines, marker)[KeptBefore(lines, marker, n)] == TrimSpace(lines[n])
    ensures |CleanLines(lines, marker)| == KeptBefore(lines, marker, |lines|)
  {
    CleanLinesInOrder(lines, marker, n);
    CleanLinesInOrder(lines, marker, n + 1);
    CleanLinesInOrder(lines, marker, |lines|);
    assert lines[..|lines|] == lines;
    assert lines[..n] + [lines[n]] == lines[..n + 1];
    CleanLinesConcat(lines[..n], [lines[n]], marker);
    assert [lines[n]][1..] == [];
    var c, k := CleanLines(lines, marker), KeptBefore(lines, marker, n);
    assert CleanLines(lines[..n + 1], marker)[k] == TrimSpace(lines[n]);
    assert c[..k + 1][k] == c[k];
  }
  // ----- what the cleaned output is -----

  lemma {:induction false} SplitWindow(s: string, sep: char, n: nat) returns (i: nat, j: nat)
    requires n < |Split(s, sep)|
    ensures i <= j <= |s| && Split(s, sep)[n] == s[i..j]
    ensures n == 0 ==> i == 0
  {
    if s == [] {
      i, j := 0, 0;
    } else if s[0] == sep && n == 0 {
      i, j := 0, 0;
    } else {
      assert s[1..|s|] == s[1..];
      i, j := SplitWindow(s[1..], sep, if s[0] == sep then n - 1 else n);
      SliceSlice(s, 1, |s|, i, j);
      if n == 0 {
        assert [s[0]] + s[1..j + 1] == s[0..j + 1];
        j := j + 1;
      } else {
        assert Split(s, sep)[n] == s[1..][i..j] == s[1 + i..1 + j];
        i, j := i + 1, j + 1;
      }
    }
  }

  lemma {:induction false} StripKeepsChars(s: string)
    ensures forall c :: c in Strip(s) ==> c in s
    decreases |s|
  {
    if s != [] {
      if MatchLength(s) > 0 { StripKeepsChars(s[MatchLength(s)..]); } else { StripKeepsChars(s[1..]); }
    }
  }

  /** The lines of a text have no line breaks, and each is a window of the stripped text. */
  lemma LinesAreClean(raw: string)
    ensures forall i :: 0 <= i < |LinesOf(raw)| ==> '\n' !in LinesOf(raw)[i] && '\r' !in LinesOf(raw)[i]
  {
    var t := Strip(BreakReturns(raw));
    SplitLaws(t, '\n');
    StripKeepsChars(BreakReturns(raw));
    forall n | 0 <= n < |LinesOf(raw)| ensures '\r' !in LinesOf(raw)[n] {
      var i, j := SplitWindow(t, '\n', n);
    }
  }

  ghost predicate AllQuiet(ls: seq<string>) { forall i :: 0 <= i < |ls| ==> Quiet(ls[i]) }

  lemma {:induction false} CleanLinesStayQuiet(lines: seq<string>, marker: string)
    requires AllQuiet(lines)
    ensures AllQuiet(CleanLines(lines, marker))
  {
    if lines != [] {
      assert forall i :: 0 <= i < |lines[1..]| ==> lines[1..][i] == lines[i + 1];
      CleanLinesStayQuiet(lines[1..], marker);
      var i, j := TrimWindow(lines[0], IsSpace);
      QuietWindow(lines[0], i, j);
    }
  }

  lemma ControlHasNoNewline(s: string)
    requires IsControl(s)
    ensures '\n' !in s && s != []
  {
    var i, j :| ControlParts(s, i, j);
  }

  /** No control sequence spans a line break. */
  lemma ControlIsInOneLine(ls: seq<string>, p: string) returns (k: nat, a: nat)
    requires IsControl(p) && Contains(Join(ls, '\n'), p)
    ensures k < |ls| && a + |p| <= |ls[k]| && ls[k][a..a + |p|] == p
  {
    ControlHasNoNewline(p);
    JoinContains(ls, '\n', p);
    k :| 0 <= k < |ls| && Contains(ls[k], p);
    a :| 0 <= a <= |ls[k]| - |p| && At(ls[k], p, a);
  }

  /** Joining quiet lines gives a quiet text. */
  lemma JoinStaysQuiet(ls: seq<string>)
    requires AllQuiet(ls)
    ensures Quiet(Join(ls, '\n'))
  {
    var all := Join(ls, '\n');
    forall i, j | 0 <= i <= j <= |all| ensures !IsControl(all[i..j]) {
      assert At(all, all[i..j], i);
      if IsControl(all[i..j]) {
        var k, a := ControlIsInOneLine(ls, all[i..j]);
      }
    }
  }

  lemma {:induction false} JoinEnds(ls: seq<string>)
    requires forall i :: 0 <= i < |ls| ==> ls[i] != "" && Trimmed(ls[i], IsSpace)
    ensures Trimmed(Join(ls, '\n'), IsSpace)
    ensures ls != [] ==> Join(ls, '\n') != "" && Join(ls, '\n')[0] == ls[0][0]
  {
    if |ls| > 1 { JoinEnds(ls[1..]); }
  }

  /** The output is exactly the kept lines joined by line breaks: the last trimming does nothing. */
  lemma CleanupIsJoin(raw: string, marker: string)
    ensures AllKept(CleanLines(LinesOf(raw), marker), marker)
    ensures Cleanup(raw, marker) == Join(CleanLines(LinesOf(raw), marker), '\n')
  {
    LinesAreClean(raw);
    CleanLinesAreKept(LinesOf(raw), marker);
    var ls := CleanLines(LinesOf(raw), marker);
    forall i | 0 <= i < |ls| ensures ls[i] != "" && Trimmed(ls[i], IsSpace) { TrimFixed(ls[i], IsSpace); }
    JoinEnds(ls);
    TrimFixed(Join(ls, '\n'), IsSpace);
  }

  /** The end marker never shows: for a marker without line break the whole output has no `marker:`. */
  lemma MarkerNeverShows(raw: string, marker: string)
    requires '\n' !in marker
    ensures !Contains(Cleanup(raw, marker), marker + ":")
  {
    CleanupIsJoin(raw, marker);
    var ls, p := CleanLines(LinesOf(raw), marker), marker + ":";
    assert |p| > 0 && '\n' !in p;
    if ls != [] {
      JoinContains(ls, '\n', p);
      forall k | 0 <= k < |ls| ensures !Contains(ls[k], p) { assert Kept(ls[k], marker); }
    }
  }

  lemma {:induction false} JoinOfKeptChars(ls: seq<string>)
    requires forall i :: 0 <= i < |ls| ==> '\r' !in ls[i]
    ensures '\r' !in Join(ls, '\n')
  {
    if |ls| > 1 { JoinOfKeptChars(ls[1..]); }
  }

  lemma NoReturnsNothingBroken(s: string)
    requires '\r' !in s
    ensures BreakReturns(s) == s
  {
    assert forall i :: 0 <= i < |s| ==> s[i] in s;
  }

  /** Kept lines joined by line breaks are cleaned to themselves, as far as stripping lets them. */
  lemma CleanupOfKept(ls: seq<string>, marker: string)
    requires AllKept(ls, marker) && Quiet(Join(ls, '\n'))
    ensures Cleanup(Join(ls, '\n'), marker) == Join(ls, '\n')
  {
    var all := Join(ls, '\n');
    JoinOfKeptChars(ls);
    NoReturnsNothingBroken(all);
    StripFixed(all);
    CleanupIsJoin(all, marker);
    if ls != [] {
      SplitJoin(ls, '\n');
      CleanKeptLines(ls, marker);
    } else {
      assert LinesOf(all) == [[]] && !Kept([], marker);
      assert CleanLines([[]], marker) == CleanLines([], marker);
    }
  }

  lemma {:induction false} CleanLinesShrink(lines: seq<string>, marker: string)
    ensures |Join(CleanLines(lines, marker), '\n')| <= |Join(lines, '\n')|
    ensures lines == [] ==> CleanLines(lines, marker) == []
  {
    if lines != [] {
      CleanLinesShrink(lines[1..], marker);
      var i, j := TrimWindow(lines[0], IsSpace);
      var head, rest := TrimSpace(lines[0]), CleanLines(lines[1..], marker);
      hide Kept, TrimSpace;
      assert ([head] + rest)[1..] == rest;
      assert |Join([head] + rest, '\n')| <= |head| + 1 + |Join(rest, '\n')|;
      assert [] + rest == rest;
    }
  }

  /** Cleaning the output once more changes nothing exactly when no control sequence is left in it. */
  lemma CleanupIdempotentIffQuiet(raw: string, marker: string)
    ensures Cleanup(Cleanup(raw, marker), marker) == Cleanup(raw, marker) <==> Quiet(Cleanup(raw, marker))
  {
    var ls := CleanLines(LinesOf(raw), marker);
    var out := Cleanup(raw, marker);
    CleanupIsJoin(raw, marker);
    if Quiet(out) {
      CleanupOfKept(ls, marker);
    } else {
      JoinOfKeptChars(ls);
      NoReturnsNothingBroken(out);
      StripFixed(out);
      StripShrinks(out);
      CleanupIsJoin(out, marker);
      SplitLaws(Strip(out), '\n');
      CleanLinesShrink(LinesOf(out), marker);
    }
  }

  /** That is so whenever one pass over the input leaves no further control sequence. */
  lemma CleanupIdempotent(raw: string, marker: string)
    requires Quiet(Strip(BreakReturns(raw)))
    ensures Cleanup(Cleanup(raw, marker), marker) == Cleanup(raw, marker)
  {
    var t := Strip(BreakReturns(raw));
    forall n | 0 <= n < |LinesOf(raw)| ensures Quiet(LinesOf(raw)[n]) {
      var i, j := SplitWindow(t, '\n', n);
      QuietWindow(t, i, j);
    }
    CleanLinesStayQuiet(LinesOf(raw), marker);
    JoinStaysQuiet(CleanLines(LinesOf(raw), marker));
    CleanupIsJoin(raw, marker);
    CleanupIdempotentIffQuiet(raw, marker);
  }

  lemma {:induction false} BreakStream(segs: seq<Segment>) returns (broken: seq<Segment>)
    requires WellFormed(segs)
    ensures WellFormed(broken) && Stream(broken) == BreakReturns(Stream(segs))
  {
    if segs == [] {
      broken := [];
    } else {
      var rest := BreakStream(segs[1..]);
      hide WellFormed, Stream, BreakReturns;
      var head := if segs[0].Plain? then segs[0].text else segs[0].code;
      assert [segs[0]] + segs[1..] == segs;
      Prepended(segs[0], segs[1..]);
      BreakConcat(head, Stream(segs[1..]));
      broken := [if segs[0].Plain? then Plain(BreakReturns(head)) else segs[0]] + rest;
      Prepended(broken[0], rest);
      assert segs[0].Control? ==> BreakReturns(head) == head by {
        if segs[0].Control? { ControlHasNoReturn(head); NoReturnsNothingBroken(head); }
      }
    }
  }

  lemma BreakConcat(a: string, b: string)
    ensures BreakReturns(a + b) == BreakReturns(a) + BreakReturns(b)
    ensures ESC !in a ==> ESC !in BreakReturns(a)
  {}

  lemma ControlHasNoReturn(s: string)
    requires IsControl(s)
    ensures '\r' !in s
  {
    var i, j :| ControlParts(s, i, j);
    assert forall k :: 2 <= k < |s| ==> IsParam(s[k]) || IsIntermediate(s[k]) || IsFinal(s[k]);
  }

  /** In terms of the input: cleaning is idempotent on every terminal stream whose escape characters all
      begin accepted control sequences. */
  lemma CleanupIdempotentOnStreams(raw: string, marker: string)
    requires IsStream(raw)
    ensures Cleanup(Cleanup(raw, marker), marker) == Cleanup(raw, marker)
  {
    var segs :| WellFormed(segs) && Stream(segs) == raw;
    var broken := BreakStream(segs);
    StreamNeedsOnePass(BreakReturns(raw));
    CleanupIdempotent(raw, marker);
  }

  // ----- plain lines -----

  /** l0 s0 l1 s1 ... ln */
  function Written(ls: seq<string>, seps: string): string
    requires |ls| == |seps| + 1
  {
    if seps == [] then ls[0] else ls[0] + [seps[0]] + Written(ls[1..], seps[1..])
  }

  /** The lines that show, trimmed: not blank, without the marker and a colon, no call of the shell script. */
  function ShownLines(ls: seq<string>, marker: string): seq<string> {
    if ls == [] then []
    else
      var t := TrimSpace(ls[0]);
      (if NotBlank(ls[0]) && !Contains(t, marker + ":") && !HasPrefix(t, "/hermes.sh") then [t] else [])
        + ShownLines(ls[1..], marker)
  }

  lemma {:induction false} ShownIsClean(ls: seq<string>, marker: string)
    ensures CleanLines(ls, marker) == ShownLines(ls, marker)
  {
    if ls != [] {
      NotBlankIsTrim(ls[0]);
      ShownIsClean(ls[1..], marker);
    }
  }

  lemma {:induction false} WrittenBreaks(ls: seq<string>, seps: string)
    requires |ls| == |seps| + 1 && (forall i :: 0 <= i < |seps| ==> seps[i] == '\n' || seps[i] == '\r')
    requires forall i :: 0 <= i < |ls| ==> '\r' !in ls[i]
    ensures BreakReturns(Written(ls, seps)) == Join(ls, '\n')
  {
    NoReturnsNothingBroken(ls[0]);
    if seps != [] {
      var rest := Written(ls[1..], seps[1..]);
      WrittenBreaks(ls[1..], seps[1..]);
      BreakConcat(ls[0] + [seps[0]], rest);
      BreakConcat(ls[0], [seps[0]]);
      assert BreakReturns([seps[0]]) == ['\n'];
    }
  }

  lemma {:induction false} JoinIsFree(ls: seq<string>)
    requires forall i :: 0 <= i < |ls| ==> ESC !in ls[i]
    ensures ESC !in Join(ls, '\n')
  {
    if |ls| > 1 { JoinIsFree(ls[1..]); }
  }

  /** On escape-free lines, ended by line feeds or carriage returns in any mixture, the output is exactly the
      lines that show, one below the other. */
  lemma PlainLinesCleaned(ls: seq<string>, seps: string, marker: string)
    requires |ls| == |seps| + 1 && (forall i :: 0 <= i < |seps| ==> seps[i] == '\n' || seps[i] == '\r')
    requires forall i :: 0 <= i < |ls| ==> ESC !in ls[i] && '\n' !in ls[i] && '\r' !in ls[i]
    ensures Cleanup(Written(ls, seps), marker) == Join(ShownLines(ls, marker), '\n')
  {
    var raw := Written(ls, seps);
    WrittenBreaks(ls, seps);
    JoinIsFree(ls);
    StripPlain(Join(ls, '\n'), []);
    assert Join(ls, '\n') + [] == Join(ls, '\n');
    assert NoneContain(ls, '\n');
    SplitJoin(ls, '\n');
    assert LinesOf(raw) == ls;
    CleanupIsJoin(raw, marker);
    ShownIsClean(ls, marker);
  }

  // ----- reading until the marker -----

  /** One output frame: an optional leading `0` is the frame's opcode. */
  function DecodeOutput(payload: string): string {
    if payload == "" then ""
    else if payload[0] == '0' && |payload| > 1 then TrimSpace(payload[1..])
    else TrimSpace(payload)
  }

  datatype Read = Payload(bytes: string) | ReadError(unexpectedClose: bool)

  /** Reading past the end of what arrives is an error like a timeout. */
  function ReadAt(input: seq<Read>, i: nat): Read {
    if i < |input| then input[i] else ReadError(false)
  }

  /** The non-empty outputs of the payloads read. */
  function Chunks(input: seq<Read>): seq<string> {
    if input == [] then []
    else
      var n := |input| - 1;
      var x := input[n];
      Chunks(input[..n]) + (if x.Payload? && DecodeOutput(x.bytes) != "" then [DecodeOutput(x.bytes)] else [])
  }

  /** The end marker of a command started at a given time. */
  function Marker(nanos: nat): string { "__HERMES_EXIT__:" + Decimal(nanos) + "__" }

  lemma MarkerIsOneLine(nanos: nat)
    ensures '\n' !in Marker(nanos)
  {
    DecimalRoundTrip(nanos);
  }

  predicate BringsMarker(x: Read, marker: string) {
    x.Payload? && Contains(DecodeOutput(x.bytes), marker)
  }

  /** Reading ends at n: the first read that is an error or whose own output contains the marker. */
  ghost predicate EndsAt(input: seq<Read>, marker: string, n: nat) {
    && n <= |input| && (ReadAt(input, n).ReadError? || BringsMarker(input[n], marker))
    && forall i :: 0 <= i < n ==> input[i].Payload? && !BringsMarker(input[i], marker)
  }

  // ----- what frames carry -----

  /** A terminal frame carries text t: behind the opcode, or as it is when there is no opcode to take for
      one. A lone 0 is text. */
  predicate Carries(x: Read, t: string) {
    x.Payload? && t != "" && (x.bytes == "0" + t || (x.bytes == t && (t[0] != '0' || t == "0")))
  }

  /** The trimmed texts, without the blank ones. */
  function Shown(ts: seq<string>): seq<string> {
    if ts == [] then []
    else
      var n := |ts| - 1;
      Shown(ts[..n]) + (if NotBlank(ts[n]) then [TrimSpace(ts[n])] else [])
  }

  lemma CarriedIsDecoded(x: Read, t: string)
    requires Carries(x, t)
    ensures DecodeOutput(x.bytes) == TrimSpace(t) && (DecodeOutput(x.bytes) != "" <==> NotBlank(t))
  {
    NotBlankIsTrim(t);
    if x.bytes == "0" + t { assert x.bytes[1..] == t; }
  }

  lemma {:induction false} ChunksAreShown(input: seq<Read>, ts: seq<string>)
    requires |ts| == |input| && forall i :: 0 <= i < |ts| ==> Carries(input[i], ts[i])
    ensures Chunks(input) == Shown(ts)
  {
    if ts != [] {
      var n := |ts| - 1;
      ChunksAreShown(input[..n], ts[..n]);
      CarriedIsDecoded(input[n], ts[n]);
    }
  }

  /** The frames carry these texts, and the last one is the first to bring the marker. */
  ghost predicate CarriesUpTo(input: seq<Read>, ts: seq<string>, marker: string) {
    && 0 < |ts| <= |input| && (forall i :: 0 <= i < |ts| ==> Carries(input[i], ts[i]))
    && forall i :: 0 <= i < |ts| ==> (Contains(TrimSpace(ts[i]), marker) <==> i == |ts| - 1)
  }

  lemma CarriedEnd(input: seq<Read>, ts: seq<string>, marker: string, n: nat)
    requires CarriesUpTo(input, ts, marker) && EndsAt(input, marker, n)
    ensures n == |ts| - 1 && ReadAt(input, n).Payload? && Chunks(input[..n + 1]) == Shown(ts)
  {
    forall i | 0 <= i < |ts| ensures BringsMarker(input[i], marker) <==> i == |ts| - 1 {
      CarriedIsDecoded(input[i], ts[i]);
    }
    EndIsOne(input, marker, n, |ts| - 1);
    ChunksAreShown(input[..n + 1], ts);
  }

  lemma EndIsOne(input: seq<Read>, marker: string, n: nat, m: nat)
    requires EndsAt(input, marker, n) && EndsAt(input, marker, m)
    ensures n == m
  {
    hide BringsMarker;
  }

  method CleanedOutput(chunks: seq<string>, nanos: nat) returns (r: Option<string>)
    ensures r == Some(Cleanup(Join(chunks, '\n'), Marker(nanos)))
    ensures !Contains(r.value, Marker(nanos) + ":")
  {
    MarkerIsOneLine(nanos);
    MarkerNeverShows(Join(chunks, '\n'), Marker(nanos));
    var text := CleanupTTYOutput(Join(chunks, '\n'), Marker(nanos));
    r := Some(text);
  }

  /** The loop's test, on everything read so far, comes down to the frame just read. */
  lemma OnlyLastChunkMatters(chunks: seq<string>, out: string, nanos: nat)
    requires forall k :: 0 <= k < |chunks| ==> !Contains(chunks[k], Marker(nanos))
    ensures Contains(Join(chunks + [out], '\n'), Marker(nanos)) <==> Contains(out, Marker(nanos))
  {
    hide Contains, Join, Marker;
    var all := chunks + [out];
    MarkerIsOneLine(nanos);
    JoinContains(all, '\n', Marker(nanos));
    assert all[|chunks|] == out;
    assert forall k :: 0 <= k < |chunks| ==> all[k] == chunks[k];
  }

  /** The loop looks for the marker in everything read so far, joined by line breaks; it ends at the
      first single frame that brings the marker, and never finds one split over two frames. What it
      returns is the cleaned text of the frames up to there. */
  method ReadOutput(input: seq<Read>, nanos: nat) returns (r: Option<string>, ghost n: nat)
    ensures EndsAt(input, Marker(nanos), n)
    ensures ReadAt(input, n).Payload? ==> r == Some(Cleanup(Join(Chunks(input[..n + 1]), '\n'), Marker(nanos)))
    ensures ReadAt(input, n).ReadError? ==>
      r == if Chunks(input[..n]) != [] && ReadAt(input, n).unexpectedClose
           then Some(Cleanup(Join(Chunks(input[..n]), '\n'), Marker(nanos))) else None
    ensures r.Some? ==> !Contains(r.value, Marker(nanos) + ":")
    // and in terms of the texts the frames carry: the opcode never gets into them
    ensures forall ts :: CarriesUpTo(input, ts, Marker(nanos)) ==>
      r == Some(Cleanup(Join(Shown(ts), '\n'), Marker(nanos)))
  {
    r, n := ReadFrames(input, nanos);
    hide Contains, Marker, Cleanup, Join, Chunks, EndsAt, CarriesUpTo;
    forall ts | CarriesUpTo(input, ts, Marker(nanos))
      ensures r == Some(Cleanup(Join(Shown(ts), '\n'), Marker(nanos)))
    {
      CarriedEnd(input, ts, Marker(nanos), n);
    }
  }

  /** The loop itself. */
  method ReadFrames(input: seq<Read>, nanos: nat) returns (r: Option<string>, ghost n: nat)
    ensures EndsAt(input, Marker(nanos), n)
    ensures ReadAt(input, n).Payload? ==> r == Some(Cleanup(Join(Chunks(input[..n + 1]), '\n'), Marker(nanos)))
    ensures ReadAt(input, n).ReadError? ==>
      r == if Chunks(input[..n]) != [] && ReadAt(input, n).unexpectedClose
           then Some(Cleanup(Join(Chunks(input[..n]), '\n'), Marker(nanos))) else None
    ensures r.Some? ==> !Contains(r.value, Marker(nanos) + ":")
  {
    hide Contains, Marker, DecodeOutput, Cleanup, Join;
    var marker := Marker(nanos);
    var chunks: seq<string> := [];
    var i := 0;
    while true
      invariant i <= |input| && chunks == Chunks(input[..i])
      invariant forall k :: 0 <= k < i ==> input[k].Payload? && !BringsMarker(input[k], marker)
      invariant forall k :: 0 <= k < |chunks| ==> !Contains(chunks[k], marker)
      decreases |input| - i
    {
      var got := ReadAt(input, i);
      if got.ReadError? {
        n := i;
        if |chunks| > 0 && got.unexpectedClose {
          r := CleanedOutput(chunks, nanos);
          return;
        }
        return None, n;
      }
      assert input[..i + 1][..i] == input[..i];
      var out := DecodeOutput(got.bytes);
      if out != "" {
        OnlyLastChunkMatters(chunks, out, nanos);
        chunks := chunks + [out];
        if Contains(Join(chunks, '\n'), marker) {
          n := i;
          r := CleanedOutput(chunks, nanos);
          return;
        }
      } else {
        EmptyBringsNothing(nanos);
      }
      i := i + 1;
    }
  }

  lemma EmptyBringsNothing(nanos: nat)
    ensures !Contains("", Marker(nanos))
  {
    assert |Marker(nanos)| > 0;
  }
}
