/** The key an outgoing event is deduplicated by (internal/app/app.go). */
module Fingerprint {
  import opened GoText
  import opened Frames
  import opened JsonText

  /** The bytes hashed for a message: four fields joined by bars, nothing escaped. */
  function Material(eventType: string, sessionKey: string, requestID: string, raw: string): string {
    eventType + "|" + sessionKey + "|" + requestID + "|" + raw
  }

  /** `hash` stands for the hex text of SHA-256. */
  function OutboundKey(hash: string -> string, m: Message): string {
    if !NotBlank(FirstNonEmpty([m.requestID, m.eventType])) then ""
    else "out:" + hash(Material(m.eventType, m.sessionKey, m.requestID, m.raw))
  }

  ghost predicate Injective(hash: string -> string) {
    forall x, y :: hash(x) == hash(y) ==> x == y
  }

  /** json.Unmarshal accepts only JSON texts. */
  ghost predicate DecodesJson(decode: string -> Option<Frame>) {
    forall raw :: decode(raw).Some? ==> IsJsonText(raw)
  }

  /** Cutting a text at its last field: only one cut leaves a balanced tail. */
  lemma BalancedTailUnique(u: string, r: string, u': string, r': string)
    requires u + "|" + r == u' + "|" + r'
    requires Balanced(r) && Balanced(r')
    ensures u == u' && r == r'
  {
    var x, x' := u + "|" + r, u' + "|" + r';
    if |r| > |r'| {
      BarInside(u, r, u', r');
    } else if |r| < |r'| {
      BarInside(u', r', u, r);
    } else {
      assert x[..|u|] == u && x'[..|u'|] == u' && x[|u| + 1..] == r && x'[|u'| + 1..] == r';
    }
  }

  lemma BarInside(u: string, r: string, u': string, r': string)
    requires u + "|" + r == u' + "|" + r' && |r| > |r'|
    ensures Balanced(r) ==> !Balanced(r')
  {
    var x, x' := u + "|" + r, u' + "|" + r';
    var n := |r| - |r'| - 1;
    var w := r[..n];
    assert r == x[|u| + 1..] && r' == x'[|u'| + 1..];
    assert r[n] == x[|u| + 1 + n] == x'[|u'|] == '|';
    assert r[n + 1..] == x[|u| + 1..][n + 1..] == x[|u| + 1 + n + 1..] == r';
    assert r == w + "|" + r';
    if Balanced(r) { NoTailAfterBar(w, r'); }
  }

  /** The undelimited joining is uniquely decodable up to its last field: if two messages whose raw
      frames are JSON texts give equal bytes, their raw frames are byte-identical. */
  lemma MaterialIdentifiesRaw(
    e: string, s: string, q: string, raw: string, e': string, s': string, q': string, raw': string)
    requires IsJsonText(raw) && IsJsonText(raw')
    requires Material(e, s, q, raw) == Material(e', s', q', raw')
    ensures raw == raw' && e + "|" + s + "|" + q == e' + "|" + s' + "|" + q'
  {
    JsonIsBalanced(raw);
    JsonIsBalanced(raw');
    BalancedTailUnique(e + "|" + s + "|" + q, raw, e' + "|" + s' + "|" + q', raw');
  }

  /** Without the JSON frame the joining is ambiguous: bars may move between the fields. */
  lemma MaterialAmbiguous()
    ensures Material("a", "b", "c", "d|e") == Material("a", "b", "c|d", "e")
    ensures Material("a|b", "c", "d", "1") == Material("a", "b|c", "d", "1")
  {}

  /** Two decoded frames share a dedupe key exactly when they are the same bytes (given the digest
      has no collisions), and then all the fields read from them agree too. */
  lemma OutboundKeyIdentifiesFrame(hash: string -> string, decode: string -> Option<Frame>, raw: string, raw': string)
    requires Injective(hash) && DecodesJson(decode) && decode(raw).Some? && decode(raw').Some?
    requires OutboundKey(hash, MessageOf(raw, decode(raw).value)) != ""
    ensures OutboundKey(hash, MessageOf(raw, decode(raw).value)) ==
      OutboundKey(hash, MessageOf(raw', decode(raw').value))
      <==> raw == raw'
  {
    var m, m' := MessageOf(raw, decode(raw).value), MessageOf(raw', decode(raw').value);
    var k, k' := OutboundKey(hash, m), OutboundKey(hash, m');
    if k == k' {
      var x := Material(m.eventType, m.sessionKey, m.requestID, m.raw);
      var x' := Material(m'.eventType, m'.sessionKey, m'.requestID, m'.raw);
      assert hash(x) == k[4..] == k'[4..] == hash(x');
      MaterialIdentifiesRaw(
        m.eventType, m.sessionKey, m.requestID, raw, m'.eventType, m'.sessionKey, m'.requestID, raw');
    }
  }

  /** A message with an event type always has a dedupe key, and the store does not see it as blank. */
  lemma TypedEventsHaveKeys(hash: string -> string, m: Message)
    requires NotBlank(m.eventType)
    ensures NotBlank(OutboundKey(hash, m)) && HasPrefix(OutboundKey(hash, m), "out:")
  {
    var f := FirstNonEmpty([m.requestID, m.eventType]);
    assert [m.requestID, m.eventType][1] == m.eventType;
    var k := OutboundKey(hash, m);
    assert !IsSpace(k[0]);
  }
}
