/** Decoded gateway frames and the accessors the bridge reads them with
    (internal/wsclient/client.go, internal/app/app.go). */
module Frames {
  import opened GoText

  datatype Json =
    | Null
    | Bool(b: bool)
    | Num(text: string)
    | Str(s: string)
    | Arr(elems: seq<Json>)
    | Obj(fields: Frame)

  /** A Go map[string]any. A nil map reads like an empty one, so both are the empty map here. */
  type Frame = map<string, Json>

  function GetString(data: Frame, key: string): (r: string)
    ensures TrimSpace(r) == r
    ensures r != "" ==> key in data && data[key].Str?
  {
    TrimFixed("", IsSpace);
    if key in data && data[key].Str? then TrimSpaceIdempotent(data[key].s); TrimSpace(data[key].s) else ""
  }

  function GetMap(data: Frame, key: string): Frame {
    if key in data && data[key].Obj? then data[key].fields else map[]
  }

  predicate HasTrue(data: Frame, key: string) {
    key in data && data[key] == Bool(true)
  }

  /** frame["error"] present and not null. */
  predicate HasError(frame: Frame) {
    "error" in frame && frame["error"] != Null
  }

  function FirstNonEmpty(values: seq<string>): (r: string)
    ensures r == "" <==> forall i :: 0 <= i < |values| ==> !NotBlank(values[i])
    ensures r != "" ==> NotBlank(r) && r in values
  {
    if values == [] then "" else if NotBlank(values[0]) then values[0] else FirstNonEmpty(values[1..])
  }

  function ExtractEventType(frame: Frame): string {
    FirstNonEmpty([GetString(frame, "eventType"), GetString(frame, "event"), GetString(frame, "method")])
  }

  function ExtractRequestID(frame: Frame): string {
    FirstNonEmpty([GetString(frame, "requestId"), GetString(frame, "id"), GetString(frame, "reqId")])
  }

  /** The maps searched for a session key, in order. */
  function SessionKeyCandidates(frame: Frame): seq<Frame> {
    [frame, GetMap(frame, "params"), GetMap(frame, "payload"), GetMap(GetMap(frame, "result"), "entry"),
     GetMap(GetMap(frame, "params"), "entry"), GetMap(GetMap(frame, "payload"), "entry")]
  }

  function FirstSessionKey(ms: seq<Frame>): string {
    if ms == [] then ""
    else if GetString(ms[0], "sessionKey") != "" then GetString(ms[0], "sessionKey")
    else if GetString(ms[0], "key") != "" then GetString(ms[0], "key")
    else FirstSessionKey(ms[1..])
  }

  function ExtractSessionKey(frame: Frame): string {
    FirstSessionKey(SessionKeyCandidates(frame))
  }

  /** The first candidate map that names a session decides, `sessionKey` before `key` in it. */
  lemma {:induction false} SessionKeyFirstWins(ms: seq<Frame>, i: nat)
    requires i < |ms| && (GetString(ms[i], "sessionKey") != "" || GetString(ms[i], "key") != "")
    requires forall j :: 0 <= j < i ==> GetString(ms[j], "sessionKey") == "" == GetString(ms[j], "key")
    ensures FirstSessionKey(ms) ==
      (if GetString(ms[i], "sessionKey") != "" then GetString(ms[i], "sessionKey") else GetString(ms[i], "key"))
  {
    if i > 0 {
      forall j | 0 <= j < i - 1 ensures GetString(ms[1..][j], "sessionKey") == "" == GetString(ms[1..][j], "key") {
        assert ms[1..][j] == ms[j + 1];
      }
      SessionKeyFirstWins(ms[1..], i - 1);
    }
  }

  /** Every extracted field is already trimmed. */
  lemma ExtractedTrimmed(frame: Frame)
    ensures TrimSpace(ExtractEventType(frame)) == ExtractEventType(frame)
    ensures TrimSpace(ExtractRequestID(frame)) == ExtractRequestID(frame)
    ensures TrimSpace(ExtractSessionKey(frame)) == ExtractSessionKey(frame)
  {
    TrimFixed("", IsSpace);
    SessionKeyTrimmed(SessionKeyCandidates(frame));
  }

  lemma {:induction false} SessionKeyTrimmed(ms: seq<Frame>)
    ensures TrimSpace(FirstSessionKey(ms)) == FirstSessionKey(ms)
  {
    TrimFixed("", IsSpace);
    if ms != [] { SessionKeyTrimmed(ms[1..]); }
  }

  /** What the read loop hands to a message handler. */
  datatype Message = Message(
    kind: string, eventType: string, requestID: string, sessionKey: string, raw: string, frame: Frame)

  function MessageOf(raw: string, frame: Frame): Message {
    Message(
      GetString(frame, "type"), ExtractEventType(frame), ExtractRequestID(frame), ExtractSessionKey(frame), raw, frame)
  }

  /** The end of an answer, as far as a frame shows it. */
  predicate IsFinalEvent(m: Message) {
    var params := GetMap(m.frame, "params");
    var payload := GetMap(m.frame, "payload");
    || HasTrue(m.frame, "final") || HasTrue(m.frame, "done")
    || HasTrue(params, "final") || HasTrue(params, "done") || HasTrue(payload, "final") || HasTrue(payload, "done")
    || ToLower(FirstNonEmpty([
         GetString(m.frame, "status"), GetString(params, "status"), GetString(payload, "status"),
         GetString(params, "state"), GetString(payload, "state")]))
       in {"done", "completed", "final", "finished", "success"}
  }

  predicate RequiresSessionKey(eventType: string) {
    TrimSpace(ToLower(eventType)) in {"session.message", "session.tool", "agent"}
  }

  // ----- where in a frame the fields are -----

  /** The value at a path of names below a value. */
  function Lookup(v: Json, path: seq<string>): Option<Json> {
    if path == [] then Some(v)
    else if v.Obj? && path[0] in v.fields then Lookup(v.fields[path[0]], path[1..])
    else None
  }

  /** The text at a path: a string that is not blank, trimmed; the empty text for anything else. */
  function TextAt(frame: Frame, path: seq<string>): string {
    match Lookup(Obj(frame), path)
    case Some(Str(s)) => TrimSpace(s)
    case _ => ""
  }

  /** The first text among the paths, the empty text if there is none. */
  function FirstText(frame: Frame, paths: seq<seq<string>>): string {
    if paths == [] then ""
    else if TextAt(frame, paths[0]) != "" then TextAt(frame, paths[0])
    else FirstText(frame, paths[1..])
  }

  lemma PathOne(frame: Frame, a: string)
    ensures TextAt(frame, [a]) == GetString(frame, a)
    ensures Lookup(Obj(frame), [a]) == Some(Bool(true)) <==> HasTrue(frame, a)
  {
    if a in frame { LookupNext(frame, [a]); }
  }

  lemma LookupNext(frame: Frame, path: seq<string>)
    requires path != [] && path[0] in frame
    ensures Lookup(Obj(frame), path) == Lookup(frame[path[0]], path[1..])
  {}

  lemma PathTwo(frame: Frame, a: string, b: string)
    ensures TextAt(frame, [a, b]) == GetString(GetMap(frame, a), b)
    ensures Lookup(Obj(frame), [a, b]) == Some(Bool(true)) <==> HasTrue(GetMap(frame, a), b)
  {
    assert [a, b][1..] == [b];
    if a in frame {
      LookupNext(frame, [a, b]);
      if frame[a].Obj? { PathOne(frame[a].fields, b); }
    }
  }

  lemma PathThree(frame: Frame, a: string, b: string, c: string)
    ensures TextAt(frame, [a, b, c]) == GetString(GetMap(GetMap(frame, a), b), c)
  {
    assert [a, b, c][1..] == [b, c];
    if a in frame {
      LookupNext(frame, [a, b, c]);
      if frame[a].Obj? { PathTwo(frame[a].fields, b, c); }
    }
  }

  const EVENT_TYPE_PATHS := [["eventType"], ["event"], ["method"]]
  const REQUEST_ID_PATHS := [["requestId"], ["id"], ["reqId"]]
  const SESSION_KEY_PATHS := [
    ["sessionKey"], ["key"],
    ["params", "sessionKey"], ["params", "key"],
    ["payload", "sessionKey"], ["payload", "key"],
    ["result", "entry", "sessionKey"], ["result", "entry", "key"],
    ["params", "entry", "sessionKey"], ["params", "entry", "key"],
    ["payload", "entry", "sessionKey"], ["payload", "entry", "key"]]
  const STATUS_PATHS := [
    ["status"], ["params", "status"], ["payload", "status"], ["params", "state"], ["payload", "state"]]
  const FINAL_FLAGS := [
    ["final"], ["done"], ["params", "final"], ["params", "done"], ["payload", "final"], ["payload", "done"]]

  lemma FirstTextOne(frame: Frame, path: seq<string>, rest: seq<seq<string>>)
    ensures FirstText(frame, [path] + rest) ==
      if TextAt(frame, path) != "" then TextAt(frame, path) else FirstText(frame, rest)
  {
    assert ([path] + rest)[1..] == rest;
  }

  lemma EventTypePlaces(frame: Frame)
    ensures ExtractEventType(frame) == FirstText(frame, EVENT_TYPE_PATHS)
  {
    PathOne(frame, "eventType");
    PathOne(frame, "event");
    PathOne(frame, "method");
    ThreeTexts(frame, ["eventType"], ["event"], ["method"]);
  }

  lemma RequestIDPlaces(frame: Frame)
    ensures ExtractRequestID(frame) == FirstText(frame, REQUEST_ID_PATHS)
  {
    PathOne(frame, "requestId");
    PathOne(frame, "id");
    PathOne(frame, "reqId");
    ThreeTexts(frame, ["requestId"], ["id"], ["reqId"]);
  }

  lemma ThreeTexts(frame: Frame, a: seq<string>, b: seq<string>, c: seq<string>)
    ensures FirstText(frame, [a, b, c]) == FirstNonEmpty([TextAt(frame, a), TextAt(frame, b), TextAt(frame, c)])
  {
    TextsFirst(frame, [a, b, c], [TextAt(frame, a), TextAt(frame, b), TextAt(frame, c)]);
  }

  lemma {:induction false} TextsFirst(frame: Frame, paths: seq<seq<string>>, texts: seq<string>)
    requires |texts| == |paths| && forall i :: 0 <= i < |paths| ==> texts[i] == TextAt(frame, paths[i])
    ensures FirstText(frame, paths) == FirstNonEmpty(texts)
  {
    if paths != [] {
      TextAtNotBlank(frame, paths[0]);
      TextsFirst(frame, paths[1..], texts[1..]);
    }
  }

  lemma TextAtNotBlank(frame: Frame, path: seq<string>)
    ensures TextAt(frame, path) != "" <==> NotBlank(TextAt(frame, path))
  {
    var v := Lookup(Obj(frame), path);
    if v.Some? && v.value.Str? {
      TrimSpaceIdempotent(v.value.s);
      NotBlankIsTrim(TrimSpace(v.value.s));
    }
  }

  lemma {:induction false} MapsFirst(frame: Frame, ms: seq<Frame>, paths: seq<seq<string>>)
    requires |paths| == 2 * |ms|
    requires forall i :: 0 <= i < |ms| ==>
      && TextAt(frame, paths[2 * i]) == GetString(ms[i], "sessionKey")
      && TextAt(frame, paths[2 * i + 1]) == GetString(ms[i], "key")
    ensures FirstText(frame, paths) == FirstSessionKey(ms)
  {
    if ms != [] {
      assert TextAt(frame, paths[2 * 0]) == GetString(ms[0], "sessionKey");
      assert TextAt(frame, paths[2 * 0 + 1]) == GetString(ms[0], "key");
      assert paths[1..][0] == paths[1] && paths[1..][1..] == paths[2..];
      forall i | 0 <= i < |ms| - 1
        ensures TextAt(frame, paths[2..][2 * i]) == GetString(ms[1..][i], "sessionKey")
        ensures TextAt(frame, paths[2..][2 * i + 1]) == GetString(ms[1..][i], "key")
      {
        assert paths[2..][2 * i] == paths[2 * (i + 1)] && paths[2..][2 * i + 1] == paths[2 * (i + 1) + 1];
      }
      MapsFirst(frame, ms[1..], paths[2..]);
    }
  }

  lemma SessionKeyPlaces(frame: Frame)
    ensures ExtractSessionKey(frame) == FirstText(frame, SESSION_KEY_PATHS)
  {
    var ms := SessionKeyCandidates(frame);
    hide FirstText, TextAt, GetString, GetMap, FirstSessionKey, Lookup, HasTrue, TrimSpace;
    PathOne(frame, "sessionKey");
    PathOne(frame, "key");
    PathTwo(frame, "params", "sessionKey");
    PathTwo(frame, "params", "key");
    PathTwo(frame, "payload", "sessionKey");
    PathTwo(frame, "payload", "key");
    PathThree(frame, "result", "entry", "sessionKey");
    PathThree(frame, "result", "entry", "key");
    PathThree(frame, "params", "entry", "sessionKey");
    PathThree(frame, "params", "entry", "key");
    PathThree(frame, "payload", "entry", "sessionKey");
    PathThree(frame, "payload", "entry", "key");
    MapsFirst(frame, ms, SESSION_KEY_PATHS);
  }

  /** The fields of a message, by the places in the frame they are read from. */
  lemma MessagePlaces(raw: string, frame: Frame)
    ensures var m := MessageOf(raw, frame);
      && m.raw == raw && m.frame == frame && m.kind == TextAt(frame, ["type"])
      && m.eventType == FirstText(frame, EVENT_TYPE_PATHS) && m.requestID == FirstText(frame, REQUEST_ID_PATHS)
      && m.sessionKey == FirstText(frame, SESSION_KEY_PATHS)
  {
    hide FirstText, TextAt;
    PathOne(frame, "type");
    EventTypePlaces(frame);
    RequestIDPlaces(frame);
    SessionKeyPlaces(frame);
  }

  /** A flag is set at one of the six places, or the first status text is one of five words, in any case. */
  ghost predicate ShowsEnd(frame: Frame) {
    || (exists i :: 0 <= i < |FINAL_FLAGS| && Lookup(Obj(frame), FINAL_FLAGS[i]) == Some(Bool(true)))
    || ToLower(FirstText(frame, STATUS_PATHS)) in {"done", "completed", "final", "finished", "success"}
  }

  lemma FlagPlaces(frame: Frame)
    ensures (exists i :: 0 <= i < |FINAL_FLAGS| && Lookup(Obj(frame), FINAL_FLAGS[i]) == Some(Bool(true))) <==>
      (|| HasTrue(frame, "final") || HasTrue(frame, "done")
       || HasTrue(GetMap(frame, "params"), "final") || HasTrue(GetMap(frame, "params"), "done")
       || HasTrue(GetMap(frame, "payload"), "final") || HasTrue(GetMap(frame, "payload"), "done"))
  {
    hide Lookup, HasTrue, GetMap, TextAt, GetString;
    var at := (i: int) requires 0 <= i < 6 => Lookup(Obj(frame), FINAL_FLAGS[i]);
    PathOne(frame, "final");
    PathOne(frame, "done");
    PathTwo(frame, "params", "final");
    PathTwo(frame, "params", "done");
    PathTwo(frame, "payload", "final");
    PathTwo(frame, "payload", "done");
    assert at(0) == Lookup(Obj(frame), ["final"]) && at(1) == Lookup(Obj(frame), ["done"]);
    assert at(2) == Lookup(Obj(frame), ["params", "final"]) && at(3) == Lookup(Obj(frame), ["params", "done"]);
    assert at(4) == Lookup(Obj(frame), ["payload", "final"]) && at(5) == Lookup(Obj(frame), ["payload", "done"]);
  }

  lemma StatusPlaces(frame: Frame)
    ensures var params, payload := GetMap(frame, "params"), GetMap(frame, "payload");
      FirstText(frame, STATUS_PATHS) == FirstNonEmpty([
        GetString(frame, "status"), GetString(params, "status"), GetString(payload, "status"),
        GetString(params, "state"), GetString(payload, "state")])
  {
    hide FirstText, FirstNonEmpty, TextAt, GetString, GetMap;
    var params, payload := GetMap(frame, "params"), GetMap(frame, "payload");
    PathOne(frame, "status");
    PathTwo(frame, "params", "status");
    PathTwo(frame, "payload", "status");
    PathTwo(frame, "params", "state");
    PathTwo(frame, "payload", "state");
    TextsFirst(frame, STATUS_PATHS, [
      GetString(frame, "status"), GetString(params, "status"), GetString(payload, "status"),
      GetString(params, "state"), GetString(payload, "state")]);
  }

  /** Finality, in terms of the frame alone. */
  lemma FinalIff(m: Message)
    ensures IsFinalEvent(m) <==> ShowsEnd(m.frame)
  {
    hide FirstText, FirstNonEmpty, HasTrue, GetString, GetMap, Lookup, TextAt, ToLower;
    FlagPlaces(m.frame);
    StatusPlaces(m.frame);
  }

  /** A frame carries an error exactly when something other than null stands at `error`. */
  lemma ErrorIff(frame: Frame, v: Json)
    ensures !HasError(frame - {"error"}) && !HasError(frame["error" := Null])
    ensures v != Null ==> HasError(frame["error" := v])
    ensures HasError(frame) <==> Lookup(Obj(frame), ["error"]) !in {None, Some(Null)}
  {
    if "error" in frame { LookupNext(frame, ["error"]); }
  }
}
