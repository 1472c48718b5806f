/** Session keys and the keys derived from them (internal/httpapi/server.go, internal/app/app.go). */
module SessionKeys {
  import opened GoText

  // ----- sanitising one identifier -----

  /** The characters the pattern [^a-zA-Z0-9._:-]+ leaves alone. */
  predicate IsIdChar(c: char) {
    'a' <= c <= 'z' || 'A' <= c <= 'Z' || '0' <= c <= '9' || c == '.' || c == '_' || c == ':' || c == '-'
  }

  predicate IsEdgeChar(c: char) { c == '-' || c == ':' || c == '.' }

  function DropForeign(s: string): (r: string)
    ensures |r| <= |s|
    ensures r == [] || IsIdChar(r[0])
    ensures s != [] && !IsIdChar(s[0]) ==> |r| < |s|
  {
    if s == [] || IsIdChar(s[0]) then s else DropForeign(s[1..])
  }

  /** nonIDChars.ReplaceAllString(s, "-"): every maximal run of foreign characters becomes one dash. */
  function Collapse(s: string): string
    decreases |s|
  {
    if s == [] then []
    else if IsIdChar(s[0]) then [s[0]] + Collapse(s[1..])
    else ['-'] + Collapse(DropForeign(s))
  }

  function SanitizeID(v: string): string {
    var out := TrimSpace(ToLower(v));
    if out == "" then "" else Trim(Collapse(out), IsEdgeChar)
  }

  /** What a sanitised identifier looks like: small letters, digits, dot, underscore, colon and dash, with
      none of dash, colon and dot at either end. */
  predicate IsCleanID(s: string) {
    && (forall i :: 0 <= i < |s| ==> 'a' <= s[i] <= 'z' || '0' <= s[i] <= '9' || s[i] in {'.', '_', ':', '-'})
    && (s != [] ==> s[0] !in {'-', ':', '.'} && s[|s| - 1] !in {'-', ':', '.'})
  }

  lemma {:induction false} CollapseChars(s: string)
    requires forall i :: 0 <= i < |s| ==> LowerChar(s[i]) == s[i]
    ensures forall c :: c in Collapse(s) ==> IsIdChar(c) && LowerChar(c) == c
    decreases |s|
  {
    if s != [] {
      if IsIdChar(s[0]) {
        CollapseChars(s[1..]);
      } else {
        DropForeignSuffix(s);
        CollapseChars(DropForeign(s));
      }
    }
  }

  lemma {:induction false} DropForeignSuffix(s: string)
    ensures DropForeign(s) == s[|s| - |DropForeign(s)|..]
  {
    if s != [] && !IsIdChar(s[0]) { DropForeignSuffix(s[1..]); }
  }

  lemma {:induction false} CollapseKeepsIds(s: string)
    requires forall i :: 0 <= i < |s| ==> IsIdChar(s[i])
    ensures Collapse(s) == s
  {
    if s != [] { CollapseKeepsIds(s[1..]); }
  }

  /** The images of sanitizeID are exactly the clean identifiers, and those are its fixed points;
      so sanitising twice is sanitising once. */
  lemma SanitizeImage(v: string)
    ensures IsCleanID(SanitizeID(v))
    ensures IsCleanID(v) <==> SanitizeID(v) == v
    ensures SanitizeID(SanitizeID(v)) == SanitizeID(v)
  {
    SanitizeClean(v);
    if IsCleanID(v) { CleanIsFixed(v); }
    CleanIsFixed(SanitizeID(v));
  }

  lemma SanitizeClean(v: string)
    ensures IsCleanID(SanitizeID(v))
  {
    var out := TrimSpace(ToLower(v));
    assert forall i :: 0 <= i < |out| ==> LowerChar(out[i]) == out[i] by {
      var low := ToLower(v);
      assert forall c :: c in low ==> LowerChar(c) == c;
      forall i | 0 <= i < |out| ensures LowerChar(out[i]) == out[i] { assert out[i] in low; }
    }
    CollapseChars(out);
    var r := SanitizeID(v);
    forall i | 0 <= i < |r| ensures IsIdChar(r[i]) && LowerChar(r[i]) == r[i] {
      assert r[i] in Collapse(out);
    }
  }

  lemma CleanIsFixed(s: string)
    requires IsCleanID(s)
    ensures SanitizeID(s) == s && TrimSpace(s) == s
  {
    assert ToLower(s) == s;
    TrimFixed(s, IsSpace);
    CollapseKeepsIds(s);
    TrimFixed(s, IsEdgeChar);
  }

  // ----- sanitising by pieces -----

  /** Identifier pieces with runs of foreign characters between them. Only the outer pieces can be empty. */
  ghost predicate Alternates(ps: seq<string>, fs: seq<string>) {
    && |ps| == |fs| + 1
    && (forall i, c :: 0 <= i < |ps| && c in ps[i] ==> IsIdChar(c))
    && (forall i :: 0 <= i < |fs| ==> fs[i] != [])
    && (forall i, c :: 0 <= i < |fs| && c in fs[i] ==> !IsIdChar(c))
    && (forall i :: 0 < i < |ps| - 1 ==> ps[i] != [])
  }

  /** p0 f1 p1 ... fn pn */
  function Woven(ps: seq<string>, fs: seq<string>): string
    requires |ps| == |fs| + 1
  {
    if fs == [] then ps[0] else ps[0] + fs[0] + Woven(ps[1..], fs[1..])
  }

  lemma {:induction false} CollapsePiece(p: string, rest: string)
    requires forall c :: c in p ==> IsIdChar(c)
    ensures Collapse(p + rest) == p + Collapse(rest)
  {
    if p == [] {
      assert p + rest == rest;
    } else {
      assert (p + rest)[1..] == p[1..] + rest;
      CollapsePiece(p[1..], rest);
    }
  }

  lemma {:induction false} DropRun(f: string, rest: string)
    requires (forall c :: c in f ==> !IsIdChar(c)) && (rest == [] || IsIdChar(rest[0]))
    ensures DropForeign(f + rest) == rest
  {
    if f == [] {
      assert f + rest == rest;
    } else {
      assert (f + rest)[1..] == f[1..] + rest;
      DropRun(f[1..], rest);
    }
  }

  lemma WovenStarts(ps: seq<string>, fs: seq<string>)
    requires Alternates(ps, fs) && (ps[0] == [] ==> fs == [])
    ensures var w := Woven(ps, fs); w == [] || IsIdChar(w[0])
  {
    if ps[0] != [] { assert Woven(ps, fs)[0] == ps[0][0] && ps[0][0] in ps[0]; }
  }

  /** One dash for every run, however long, and the pieces as they are. */
  lemma {:induction false} CollapsePieces(ps: seq<string>, fs: seq<string>)
    requires Alternates(ps, fs)
    ensures Collapse(Woven(ps, fs)) == Join(ps, '-')
  {
    if fs == [] {
      CollapsePiece(ps[0], []);
      assert ps[0] + [] == ps[0];
    } else {
      var rest := Woven(ps[1..], fs[1..]);
      assert Alternates(ps[1..], fs[1..]);
      CollapsePieces(ps[1..], fs[1..]);
      WovenStarts(ps[1..], fs[1..]);
      assert Woven(ps, fs) == ps[0] + (fs[0] + rest);
      CollapsePiece(ps[0], fs[0] + rest);
      CollapseRun(fs[0], rest);
    }
  }

  lemma CollapseRun(f: string, rest: string)
    requires f != [] && (forall c :: c in f ==> !IsIdChar(c)) && (rest == [] || IsIdChar(rest[0]))
    ensures Collapse(f + rest) == ['-'] + Collapse(rest)
  {
    DropRun(f, rest);
    assert (f + rest)[0] == f[0] && f[0] in f;
  }

  /** Every text is such an alternation. */
  lemma {:induction false} Alternate(s: string) returns (ps: seq<string>, fs: seq<string>)
    ensures Alternates(ps, fs) && Woven(ps, fs) == s
    ensures s != [] && IsIdChar(s[0]) ==> ps[0] != []
    decreases |s|
  {
    if s == [] {
      ps, fs := [[]], [];
    } else if IsIdChar(s[0]) {
      var qs;
      qs, fs := Alternate(s[1..]);
      ps := [[s[0]] + qs[0]] + qs[1..];
      Prefixed(s[0], qs, fs);
    } else {
      var d := DropForeign(s);
      var n := |s| - |d|;
      DropForeignSuffix(s);
      RunIsForeign(s);
      var qs, gs := Alternate(d);
      assert s == s[..n] + d;
      ps, fs := [[]] + qs, [s[..n]] + gs;
      assert ps[1..] == qs && fs[1..] == gs;
      if d == [] && gs != [] { WovenLong(qs, gs); }
    }
  }

  lemma Prefixed(c: char, qs: seq<string>, fs: seq<string>)
    requires Alternates(qs, fs) && IsIdChar(c)
    ensures var ps := [[c] + qs[0]] + qs[1..]; Alternates(ps, fs) && Woven(ps, fs) == [c] + Woven(qs, fs)
  {
    var ps := [[c] + qs[0]] + qs[1..];
    assert ps[1..] == qs[1..];
    forall i, x | 0 <= i < |ps| && x in ps[i] ensures IsIdChar(x) {
      if i == 0 { assert x == c || x in qs[0]; } else { assert ps[i] == qs[i]; }
    }
    if fs != [] {
      assert [c] + (qs[0] + fs[0] + Woven(qs[1..], fs[1..])) == ([c] + qs[0]) + fs[0] + Woven(qs[1..], fs[1..]);
    }
  }

  lemma WovenLong(ps: seq<string>, fs: seq<string>)
    requires Alternates(ps, fs) && fs != []
    ensures Woven(ps, fs) != []
  {
    assert fs[0] != [];
  }

  lemma {:induction false} RunIsForeign(s: string)
    ensures forall i :: 0 <= i < |s| - |DropForeign(s)| ==> !IsIdChar(s[i])
  {
    if s != [] && !IsIdChar(s[0]) {
      RunIsForeign(s[1..]);
      forall i | 0 <= i < |s| - |DropForeign(s)| ensures !IsIdChar(s[i]) {
        if i > 0 { assert s[i] == s[1..][i - 1]; }
      }
    }
  }

  /** Sanitising joins the identifier pieces of the trimmed, lowered text by single dashes, and then cuts
      dashes, colons and dots off both ends, no more and no less. */
  lemma SanitizeJoinsPieces(v: string, ps: seq<string>, fs: seq<string>) returns (i: nat, j: nat)
    requires Alternates(ps, fs) && Woven(ps, fs) == TrimSpace(ToLower(v))
    ensures var joined := Join(ps, '-');
      && i <= j <= |joined| && SanitizeID(v) == joined[i..j]
      && (forall k :: 0 <= k < i || j <= k < |joined| ==> joined[k] in {'-', ':', '.'})
      && (i < j ==> joined[i] !in {'-', ':', '.'} && joined[j - 1] !in {'-', ':', '.'})
  {
    CollapsePieces(ps, fs);
    var joined := Join(ps, '-');
    i, j := TrimWindow(joined, IsEdgeChar);
    if TrimSpace(ToLower(v)) == "" {
      if fs != [] { WovenLong(ps, fs); }
      assert joined == [];
    }
    var r := Trim(joined, IsEdgeChar);
    if i < j { assert r[0] == joined[i] && r[|r| - 1] == joined[j - 1]; }
  }

  // ----- two parts joined by a colon -----

  /** The colon of the left pair sits inside the right pair's first part. */
  ghost predicate Shifted(a1: string, c1: string, a2: string, c2: string) {
    exists mid: string :: a2 == a1 + ":" + mid && c1 == mid + ":" + c2
  }

  /** All the ways two colon-joined pairs can be the same string: they are the same pair, or one
      pair's colon is swallowed by a part of the other. */
  lemma ColonCollision(a1: string, c1: string, a2: string, c2: string)
    ensures a1 + ":" + c1 == a2 + ":" + c2 <==>
      (a1 == a2 && c1 == c2) || Shifted(a1, c1, a2, c2) || Shifted(a2, c2, a1, c1)
  {
    var x, y := a1 + ":" + c1, a2 + ":" + c2;
    if x == y {
      assert x[..|a1|] == a1 && x[|a1|] == ':' && x[|a1| + 1..] == c1;
      assert y[..|a2|] == a2 && y[|a2|] == ':' && y[|a2| + 1..] == c2;
      if |a1| < |a2| {
        ColonShift(a1, c1, a2, c2);
      } else if |a2| < |a1| {
        ColonShift(a2, c2, a1, c1);
      }
    }
    if Shifted(a1, c1, a2, c2) {
      var mid: string :| a2 == a1 + ":" + mid && c1 == mid + ":" + c2;
      assert x == a1 + ":" + mid + ":" + c2 == y;
    }
    if Shifted(a2, c2, a1, c1) {
      var mid: string :| a1 == a2 + ":" + mid && c2 == mid + ":" + c1;
      assert y == a2 + ":" + mid + ":" + c1 == x;
    }
  }

  lemma ColonShift(a1: string, c1: string, a2: string, c2: string)
    requires |a1| < |a2| && a1 + ":" + c1 == a2 + ":" + c2
    ensures Shifted(a1, c1, a2, c2)
  {
    var x, y := a1 + ":" + c1, a2 + ":" + c2;
    var mid := a2[|a1| + 1..];
    assert a2 == y[..|a2|] == x[..|a2|];
    assert x[..|a2|][..|a1|] == a1 && x[..|a2|][|a1|] == x[|a1|] == ':';
    assert a2 == a1 + ":" + mid;
    assert c1 == x[|a1| + 1..] == y[|a1| + 1..];
    assert y == a1 + ":" + mid + ":" + c2;
    assert (a1 + ":" + mid + ":" + c2)[|a1| + 1..] == mid + ":" + c2;
  }

  lemma ShiftNeedsColons(a1: string, c1: string, a2: string, c2: string)
    requires Shifted(a1, c1, a2, c2)
    ensures ':' in a2 && ':' in c1
  {
    var mid: string :| a2 == a1 + ":" + mid && c1 == mid + ":" + c2;
    assert a2[|a1|] == ':' && c1[|mid|] == ':';
  }

  // ----- session keys -----

  function BuildSessionKey(agentID: string, customerID: string): string {
    var agent := SanitizeID(agentID);
    var customer := SanitizeID(customerID);
    if agent == "" || customer == "" then "" else agent + ":" + customer
  }

  /** `digest` stands for the hex text of the first eight bytes of SHA-1. */
  function BuildWorkspaceSessionKey(digest: string -> string, workspace: string): string {
    var normalized := TrimSpace(ToLower(workspace));
    if normalized == "" then "" else "workspace:" + digest(normalized)
  }

  function ResolveSessionKey(
    digest: string -> string, sessionKey: string, agentID: string, customerID: string,
    workspace: string, fallbackSessionKey: string): string
  {
    var key := TrimSpace(sessionKey);
    if key != "" then key
    else
      var fromIDs := BuildSessionKey(agentID, customerID);
      if fromIDs != "" then fromIDs
      else
        var fromWorkspace := BuildWorkspaceSessionKey(digest, workspace);
        if fromWorkspace != "" then fromWorkspace else TrimSpace(fallbackSessionKey)
  }

  ghost predicate HexDigest(digest: string -> string) {
    forall x :: |digest(x)| == 16 && forall i :: 0 <= i < 16 ==>
      '0' <= digest(x)[i] <= '9' || 'a' <= digest(x)[i] <= 'f'
  }

  /** Different sanitised (agent, customer) pairs get different session keys, unless an agent
      part carries a colon; then the collisions are exactly the shifted pairs. */
  lemma BuildSessionKeyInjective(a1: string, c1: string, a2: string, c2: string)
    requires BuildSessionKey(a1, c1) != "" && BuildSessionKey(a2, c2) != ""
    ensures BuildSessionKey(a1, c1) == BuildSessionKey(a2, c2) <==>
      || (SanitizeID(a1) == SanitizeID(a2) && SanitizeID(c1) == SanitizeID(c2))
      || Shifted(SanitizeID(a1), SanitizeID(c1), SanitizeID(a2), SanitizeID(c2))
      || Shifted(SanitizeID(a2), SanitizeID(c2), SanitizeID(a1), SanitizeID(c1))
    ensures ':' !in SanitizeID(a1) && ':' !in SanitizeID(a2) ==>
      (BuildSessionKey(a1, c1) == BuildSessionKey(a2, c2) <==>
       SanitizeID(a1) == SanitizeID(a2) && SanitizeID(c1) == SanitizeID(c2))
  {
    var p, q, r, s := SanitizeID(a1), SanitizeID(c1), SanitizeID(a2), SanitizeID(c2);
    ColonCollision(p, q, r, s);
    if Shifted(p, q, r, s) { ShiftNeedsColons(p, q, r, s); }
    if Shifted(r, s, p, q) { ShiftNeedsColons(r, s, p, q); }
  }

  /** The guard on the agent part is needed. */
  lemma BuildSessionKeyCollision()
    ensures BuildSessionKey("a:b", "c") == BuildSessionKey("a", "b:c") == "a:b:c"
    ensures SanitizeID("a:b") != SanitizeID("a")
  {
    CleanSamples();
    BuiltFromClean("a:b", "c");
    BuiltFromClean("a", "b:c");
  }

  lemma CleanSamples()
    ensures IsCleanID("a:b") && IsCleanID("c") && IsCleanID("a") && IsCleanID("b:c")
    ensures SanitizeID("a:b") == "a:b" && SanitizeID("a") == "a"
  {
    CleanIsFixed("a:b");
    CleanIsFixed("a");
  }

  lemma BuiltFromClean(a: string, c: string)
    requires IsCleanID(a) && IsCleanID(c) && a != "" && c != ""
    ensures BuildSessionKey(a, c) == a + ":" + c
  {
    CleanIsFixed(a);
    CleanIsFixed(c);
  }

  /** A key made from a workspace equals a key made from identifiers only when the agent is
      literally `workspace` and the customer is that workspace's digest. */
  lemma WorkspaceKeysApart(digest: string -> string, agentID: string, customerID: string, workspace: string)
    requires HexDigest(digest)
    requires BuildSessionKey(agentID, customerID) != "" && BuildWorkspaceSessionKey(digest, workspace) != ""
    ensures BuildSessionKey(agentID, customerID) == BuildWorkspaceSessionKey(digest, workspace) <==>
      SanitizeID(agentID) == "workspace" && SanitizeID(customerID) == digest(TrimSpace(ToLower(workspace)))
  {
    var h := digest(TrimSpace(ToLower(workspace)));
    assert ':' !in h;
    WorkspaceName(h);
    ColonFreeUnique(SanitizeID(agentID), SanitizeID(customerID), "workspace", h);
  }

  lemma WorkspaceName(h: string)
    ensures "workspace" + ":" + h == "workspace:" + h
    ensures ':' !in "workspace"
  {}

  lemma ColonFreeUnique(a: string, c: string, w: string, h: string)
    requires ':' !in w && ':' !in h
    ensures a + ":" + c == w + ":" + h <==> a == w && c == h
  {
    ColonCollision(a, c, w, h);
    if Shifted(a, c, w, h) { ShiftNeedsColons(a, c, w, h); }
    if Shifted(w, h, a, c) { ShiftNeedsColons(w, h, a, c); }
  }

  /** A resolved key is trimmed, and sent back as an explicit key it resolves to itself whatever
      the other fields say. */
  lemma ResolveFixedPoint(
    digest: string -> string, s: string, a: string, c: string, w: string, f: string,
    a': string, c': string, w': string, f': string)
    requires HexDigest(digest)
    ensures var r := ResolveSessionKey(digest, s, a, c, w, f);
      TrimSpace(r) == r && (r != "" ==> ResolveSessionKey(digest, r, a', c', w', f') == r)
  {
    var r := ResolveSessionKey(digest, s, a, c, w, f);
    assert Trimmed(r, IsSpace) by {
      SanitizeClean(a);
      SanitizeClean(c);
    }
    TrimFixed(r, IsSpace);
  }

  /** A send request has no key only when it names no session, no complete pair of identifiers and
      no workspace: there is no global fallback. */
  lemma ResolveWithoutFallback(digest: string -> string, s: string, a: string, c: string, w: string)
    ensures ResolveSessionKey(digest, s, a, c, w, "") == "" <==>
      !NotBlank(s) && (SanitizeID(a) == "" || SanitizeID(c) == "") && !NotBlank(w)
  {
    LowerKeepsSpace(w);
    NotBlankIsTrim(s);
    NotBlankIsTrim(ToLower(w));
    assert forall i :: 0 <= i < |w| ==> (IsSpace(ToLower(w)[i]) <==> IsSpace(w[i]));
  }

  /** Which part of a request names the session: an explicit key, else a complete pair of identifiers,
      else the workspace, else the fallback. */
  lemma ResolvePriority(digest: string -> string, s: string, a: string, c: string, w: string, f: string)
    ensures var r := ResolveSessionKey(digest, s, a, c, w, f);
      && (NotBlank(s) ==> r == TrimSpace(s))
      && (!NotBlank(s) && SanitizeID(a) != "" && SanitizeID(c) != "" ==> r == SanitizeID(a) + ":" + SanitizeID(c))
      && (!NotBlank(s) && (SanitizeID(a) == "" || SanitizeID(c) == "") && NotBlank(w) ==>
            r == "workspace:" + digest(TrimSpace(ToLower(w))))
      && (!NotBlank(s) && (SanitizeID(a) == "" || SanitizeID(c) == "") && !NotBlank(w) ==> r == TrimSpace(f))
  {
    NotBlankIsTrim(s);
    NotBlankIsTrim(ToLower(w));
    LowerKeepsSpace(w);
    assert forall i :: 0 <= i < |w| ==> (IsSpace(ToLower(w)[i]) <==> IsSpace(w[i]));
  }

  lemma LowerKeepsSpace(s: string)
    ensures forall i :: 0 <= i < |s| ==> (IsSpace(ToLower(s)[i]) <==> IsSpace(s[i]))
  {}

  /** A callback address is optional; one that is given must name a web address. */
  predicate CallbackOk(url: string) {
    url == "" || HasPrefix(ToLower(url), "http://") || HasPrefix(ToLower(url), "https://")
  }

  /** Given, it must begin with http:// or https://, in any case. */
  lemma CallbackOkIff(url: string)
    ensures CallbackOk(url) <==> url == "" || Begins(url, "http://") || Begins(url, "https://")
  {
    BeginsIff(url, "http://");
    BeginsIff(url, "https://");
  }

  predicate Begins(url: string, scheme: string) {
    |scheme| <= |url| && forall i :: 0 <= i < |scheme| ==> LowerChar(url[i]) == scheme[i]
  }

  lemma BeginsIff(url: string, scheme: string)
    ensures Begins(url, scheme) <==> HasPrefix(ToLower(url), scheme)
  {
    if Begins(url, scheme) { assert ToLower(url)[..|scheme|] == scheme; }
    if HasPrefix(ToLower(url), scheme) {
      forall i | 0 <= i < |scheme| ensures LowerChar(url[i]) == scheme[i] { assert ToLower(url)[i] == scheme[i]; }
    }
  }

  // ----- dedupe keys -----

  function InboundKey(sessionKey: string, dedupeKey: string): string {
    "in:" + sessionKey + ":" + dedupeKey
  }

  /** Scoped inbound keys collide exactly when session and dedupe key agree or a colon is shifted
      between them; with colon-free dedupe keys they never collide across sessions. */
  lemma InboundKeyInjective(s1: string, k1: string, s2: string, k2: string)
    ensures InboundKey(s1, k1) == InboundKey(s2, k2) <==>
      (s1 == s2 && k1 == k2) || Shifted(s1, k1, s2, k2) || Shifted(s2, k2, s1, k1)
    ensures ':' !in k1 && ':' !in k2 ==>
      (InboundKey(s1, k1) == InboundKey(s2, k2) <==> s1 == s2 && k1 == k2)
  {
    var x, y := s1 + ":" + k1, s2 + ":" + k2;
    assert InboundKey(s1, k1) == "in:" + x && InboundKey(s2, k2) == "in:" + y;
    assert ("in:" + x)[3..] == x && ("in:" + y)[3..] == y;
    ColonCollision(s1, k1, s2, k2);
    if Shifted(s1, k1, s2, k2) { ShiftNeedsColons(s1, k1, s2, k2); }
    if Shifted(s2, k2, s1, k1) { ShiftNeedsColons(s2, k2, s1, k1); }
  }

  /** A dedupe key with a colon can be claimed by another session's request. */
  lemma InboundKeyCollision()
    ensures InboundKey("agent", "main:7") == InboundKey("agent:main", "7")
  {}

  /** Inbound and outbound keys share one table column and never meet. */
  lemma PrefixesApart(sessionKey: string, dedupeKey: string, hash: string)
    ensures InboundKey(sessionKey, dedupeKey) != "out:" + hash
    ensures NotBlank(InboundKey(sessionKey, dedupeKey)) && NotBlank("out:" + hash)
  {
    var x := InboundKey(sessionKey, dedupeKey);
    assert x[0] == 'i' && ("out:" + hash)[0] == 'o';
    assert !IsSpace(x[0]) && !IsSpace(("out:" + hash)[0]);
  }
}
