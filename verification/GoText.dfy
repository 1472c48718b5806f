/** The parts of Go's `strings` and `unicode` packages the bridge relies on, as pure functions
    over sequences of Unicode scalar values, with the laws the other modules use. */
module GoText {

  datatype Option<+T> = None | Some(value: T)

  /** unicode.IsSpace. */
  predicate IsSpace(c: char) {
    || '\t' <= c <= '\r' || c == ' '
    || c == '\U{85}' || c == '\U{A0}' || c == '\U{1680}' || '\U{2000}' <= c <= '\U{200A}'
    || c == '\U{2028}' || c == '\U{2029}' || c == '\U{202F}' || c == '\U{205F}' || c == '\U{3000}'
  }

  /** unicode.ToLower: ASCII letters and the two other characters whose lower case is ASCII
      (dotted capital I and the Kelvin sign). Every other character lowers to a non-ASCII
      character, which the model leaves as it is. */
  function LowerChar(c: char): char {
    if 'A' <= c <= 'Z' then (c as int + 32) as char
    else if c == '\U{0130}' then 'i'
    else if c == '\U{212A}' then 'k'
    else c
  }

  function ToLower(s: string): (r: string)
    ensures |r| == |s|
    ensures forall i :: 0 <= i < |s| ==> r[i] == LowerChar(s[i])
  {
    seq(|s|, i requires 0 <= i < |s| => LowerChar(s[i]))
  }

  // ----- trimming -----

  ghost predicate Trimmed(s: string, cut: char -> bool) {
    s == [] || (!cut(s[0]) && !cut(s[|s| - 1]))
  }

  /** strings.Trim / strings.TrimFunc. */
  function Trim(s: string, cut: char -> bool): (r: string)
    ensures Trimmed(r, cut)
    ensures forall c :: c in r ==> c in s
    decreases |s|
  {
    if s == [] then []
    else if cut(s[0]) then Trim(s[1..], cut)
    else if cut(s[|s| - 1]) then Trim(s[..|s| - 1], cut)
    else s
  }

  function TrimSpace(s: string): (r: string)
    ensures Trimmed(r, IsSpace)
  {
    Trim(s, IsSpace)
  }

  lemma TrimFixed(s: string, cut: char -> bool)
    ensures Trim(s, cut) == s <==> Trimmed(s, cut)
  {}

  lemma TrimSpaceIdempotent(s: string)
    ensures TrimSpace(TrimSpace(s)) == TrimSpace(s)
  {
    TrimFixed(TrimSpace(s), IsSpace);
  }

  /** Trimming removes a prefix and a suffix, both made of cut characters only, and nothing else. */
  lemma {:induction false} TrimWindow(s: string, cut: char -> bool) returns (i: nat, j: nat)
    ensures i <= j <= |s| && Trim(s, cut) == s[i..j]
    ensures forall k :: 0 <= k < i || j <= k < |s| ==> cut(s[k])
    decreases |s|
  {
    if s == [] {
      i, j := 0, 0;
    } else if cut(s[0]) {
      var a, b := TrimWindow(s[1..], cut);
      i, j := a + 1, b + 1;
      forall k | 0 <= k < i || j <= k < |s| ensures cut(s[k]) {
        if k > 0 { assert s[k] == s[1..][k - 1]; }
      }
    } else if cut(s[|s| - 1]) {
      var t := s[..|s| - 1];
      i, j := TrimWindow(t, cut);
      forall k | 0 <= k < i || j <= k < |s| ensures cut(s[k]) {
        if k < |s| - 1 { assert s[k] == t[k]; }
      }
    } else {
      i, j := 0, |s|;
    }
  }

  /** The source's test strings.TrimSpace(s) != "". */
  predicate NotBlank(s: string) {
    exists k | 0 <= k < |s| :: !IsSpace(s[k])
  }

  lemma NotBlankIsTrim(s: string)
    ensures NotBlank(s) <==> TrimSpace(s) != ""
  {
    var i, j := TrimWindow(s, IsSpace);
    if i < j { assert s[i] == TrimSpace(s)[0]; }
  }

  // ----- searching -----

  predicate HasPrefix(s: string, p: string) { p <= s }

  /** `p` occurs in `s` at offset `i`. */
  predicate At(s: string, p: string, i: int) {
    0 <= i <= |s| - |p| && s[i..i + |p|] == p
  }

  predicate Contains(s: string, p: string) {
    exists i | 0 <= i <= |s| - |p| :: At(s, p, i)
  }

  /** A window of a window is a window. */
  lemma SliceSlice(s: string, i: nat, j: nat, a: nat, b: nat)
    requires i <= j <= |s| && a <= b <= j - i
    ensures s[i..j][a..b] == s[i + a..i + b]
  {
    var w := s[i..j];
    forall k | 0 <= k < b - a ensures w[a..b][k] == s[i + a..i + b][k] {
      assert w[a..b][k] == w[a + k] == s[i + a + k];
    }
    assert w[a..b] == s[i + a..i + b];
  }

  lemma ContainsInWindow(s: string, i: nat, j: nat, p: string)
    requires i <= j <= |s| && Contains(s[i..j], p)
    ensures Contains(s, p)
  {
    var a :| 0 <= a <= |s[i..j]| - |p| && At(s[i..j], p, a);
    SliceSlice(s, i, j, a, a + |p|);
    assert At(s, p, i + a);
  }

  // ----- splitting and joining at a separator character -----

  function Split(s: string, sep: char): (r: seq<string>)
    ensures |r| >= 1
  {
    if s == [] then [[]]
    else
      var rest := Split(s[1..], sep);
      if s[0] == sep then [[]] + rest else [[s[0]] + rest[0]] + rest[1..]
  }

  function Join(ls: seq<string>, sep: char): string {
    if |ls| == 0 then [] else if |ls| == 1 then ls[0] else ls[0] + [sep] + Join(ls[1..], sep)
  }

  ghost predicate NoneContain(ls: seq<string>, sep: char) {
    forall i :: 0 <= i < |ls| ==> sep !in ls[i]
  }

  lemma JoinCons(c: char, rest: seq<string>, sep: char)
    requires rest != []
    ensures Join([[c] + rest[0]] + rest[1..], sep) == [c] + Join(rest, sep)
  {
    var r := [[c] + rest[0]] + rest[1..];
    assert r[1..] == rest[1..];
    if |rest| > 1 {
      var tail := Join(rest[1..], sep);
      assert ([c] + rest[0]) + [sep] + tail == [c] + (rest[0] + [sep] + tail);
    }
  }

  lemma {:induction false} SplitLaws(s: string, sep: char)
    ensures Join(Split(s, sep), sep) == s
    ensures NoneContain(Split(s, sep), sep)
  {
    if s != [] {
      SplitLaws(s[1..], sep);
      var rest := Split(s[1..], sep);
      var r := Split(s, sep);
      if s[0] == sep {
        assert r[1..] == rest;
      } else {
        assert r[1..] == rest[1..];
        JoinCons(s[0], rest, sep);
      }
      assert s == [s[0]] + s[1..];
    }
  }

  lemma {:induction false} SplitPrefix(line: string, rest: string, sep: char)
    requires sep !in line
    ensures Split(line + [sep] + rest, sep) == [line] + Split(rest, sep)
  {
    if line == [] {
      assert ([] + [sep] + rest)[1..] == rest;
    } else {
      SplitPrefix(line[1..], rest, sep);
      assert (line + [sep] + rest)[1..] == line[1..] + [sep] + rest;
      assert line == [line[0]] + line[1..];
    }
  }

  lemma {:induction false} SplitOne(line: string, sep: char)
    requires sep !in line
    ensures Split(line, sep) == [line]
  {
    if line != [] {
      SplitOne(line[1..], sep);
      assert line == [line[0]] + line[1..];
    }
  }

  lemma {:induction false} SplitJoin(ls: seq<string>, sep: char)
    requires |ls| >= 1 && NoneContain(ls, sep)
    ensures Split(Join(ls, sep), sep) == ls
  {
    if |ls| == 1 {
      SplitOne(ls[0], sep);
    } else {
      SplitJoin(ls[1..], sep);
      SplitPrefix(ls[0], Join(ls[1..], sep), sep);
    }
  }

  /** A pattern without the separator occurs in the joined text exactly when it occurs in one
      of the joined pieces: it can never straddle a joint. */
  lemma {:induction false} JoinContains(ls: seq<string>, sep: char, p: string)
    requires sep !in p && |ls| >= 1
    ensures Contains(Join(ls, sep), p) <==> exists k :: 0 <= k < |ls| && Contains(ls[k], p)
  {
    if |ls| > 1 {
      var rest := Join(ls[1..], sep);
      var all := Join(ls, sep);
      var n := |ls[0]|;
      assert all[..n] == ls[0] && all[n + 1..] == rest && all[n] == sep;
      JoinContains(ls[1..], sep, p);
      if Contains(all, p) {
        var i :| 0 <= i <= |all| - |p| && At(all, p, i);
        if i + |p| <= n {
          assert At(ls[0], p, i);
        } else if i > n {
          assert rest[i - n - 1..i - n - 1 + |p|] == p;
          assert At(rest, p, i - n - 1);
          var k :| 0 <= k < |ls[1..]| && Contains(ls[1..][k], p);
          assert Contains(ls[k + 1], p);
        } else {
          assert false;
        }
      }
      if k :| 0 <= k < |ls| && Contains(ls[k], p) {
        if k == 0 {
          ContainsInWindow(all, 0, n, p);
        } else {
          assert ls[1..][k - 1] == ls[k];
          assert all[n + 1..|all|] == rest;
          ContainsInWindow(all, n + 1, |all|, p);
        }
      }
    }
  }
}
