/**
 OpenCode text arrives as growing snapshots of message parts; the client is sent only what
 each snapshot adds. Snapshots are forgotten when another message begins.
 */
module PartText {
  import opened Wrappers
  import opened Json
  import opened Text

  datatype Record = Record(eventType: string, payload: Value, paneId: Option<string>, cursor: Option<nat>)

  datatype TextState = TextState(parts: map<string, string>, role: Option<string>, messageId: Option<string>)

  const NO_TEXT := TextState(map[], None, None)

  datatype Delta = Delta(part: string, text: string)

  /** What is new in a snapshot; one that does not extend the previous is sent whole. */
  function DeltaOf(previous: string, text: string): string {
    if previous <= text then text[|previous|..] else text
  }

  // ---- one record ----

  function MessageId(r: Record): Option<string> {
    AsStr(At(r.payload, "info", "id"))
  }

  /** Whether the record begins another message, so that snapshots start anew. */
  predicate Clears(s: TextState, r: Record) {
    r.eventType == "user" || (r.eventType == "assistant" && (MessageId(r).None? || MessageId(r) != s.messageId))
  }

  function Turned(s: TextState, r: Record): TextState {
    if r.eventType == "user" then TextState(map[], Some("user"), None)
    else if r.eventType == "assistant" then
      TextState(if Clears(s, r) then map[] else s.parts, Some("assistant"), MessageId(r))
    else s
  }

  /** A snapshot that is looked at: the text of an assistant, or reasoning. */
  function Snapshot(s: TextState, r: Record): Option<Delta> {
    var part := Get(r.payload, "part");
    if !((r.eventType == "text" && s.role == Some("assistant")) || r.eventType == "reasoning") then None
    else if part.None? then None
    else
      match AsStr(Get(part.value, "text"))
      case None => None
      case Some(text) =>
        var id := if Get(part.value, "id").Some? then Get(part.value, "id") else GetEither(part.value, "partID", "partId");
        Some(Delta(OrElse(AsStr(id), "default"), text))
  }

  function Previous(s: TextState, part: string): string {
    if part in s.parts then s.parts[part] else ""
  }

  function After(s: TextState, r: Record): TextState {
    var t := Turned(s, r);
    match Snapshot(t, r)
    case None => t
    case Some(d) => t.(parts := t.parts[d.part := d.text])
  }

  function Sent(s: TextState, r: Record): Option<Delta> {
    var t := Turned(s, r);
    match Snapshot(t, r)
    case None => None
    case Some(d) => Some(Delta(d.part, DeltaOf(Previous(t, d.part), d.text)))
  }

  // ---- the projection's text fields, changed in place ----

  class PartTexts {
    var parts: map<string, string>
    var role: Option<string>
    var messageId: Option<string>

    ghost function State(): TextState
      reads this
    {
      TextState(parts, role, messageId)
    }

    constructor ()
      ensures State() == NO_TEXT
    {
      parts, role, messageId := map[], None, None;
    }

    method BeginMessage(r: Record)
      modifies this
      ensures State() == Turned(old(State()), r)
    {
      if r.eventType == "assistant" {
        role := Some("assistant");
        var id := MessageId(r);
        if id.None? || id != messageId {
          parts := map[];
        }
        messageId := id;
      } else if r.eventType == "user" {
        role := Some("user");
        parts := map[];
        messageId := None;
      }
    }

    method TakeDelta(d: Delta) returns (text: string)
      modifies this`parts
      ensures text == DeltaOf(Previous(old(State()), d.part), d.text)
      ensures State() == old(State()).(parts := old(parts)[d.part := d.text])
    {
      var previous := if d.part in parts then parts[d.part] else "";
      text := if previous <= d.text then d.text[|previous|..] else d.text;
      parts := parts[d.part := d.text];
    }

    method Text(r: Record) returns (sent: Option<Delta>)
      modifies this
      ensures State() == After(old(State()), r) && sent == Sent(old(State()), r)
    {
      BeginMessage(r);
      var snapshot := Snapshot(TextState(parts, role, messageId), r);
      if snapshot.None? {
        return None;
      }
      var text := TakeDelta(snapshot.value);
      return Some(Delta(snapshot.value.part, text));
    }
  }

  // ---- a run of records ----

  /** The snapshots of one part that a run of records takes. */
  function Snapshots(s: TextState, rs: seq<Record>, part: string): seq<string>
    decreases |rs|
  {
    if rs == [] then []
    else
      var d := Snapshot(Turned(s, rs[0]), rs[0]);
      (if d.Some? && d.value.part == part then [d.value.text] else []) + Snapshots(After(s, rs[0]), rs[1..], part)
  }

  /** What the client is sent of one part. */
  function SentOf(s: TextState, rs: seq<Record>, part: string): seq<string>
    decreases |rs|
  {
    if rs == [] then []
    else
      var d := Sent(s, rs[0]);
      (if d.Some? && d.value.part == part then [d.value.text] else []) + SentOf(After(s, rs[0]), rs[1..], part)
  }

  predicate OneMessage(s: TextState, rs: seq<Record>)
    decreases |rs|
  {
    rs == [] || (!Clears(s, rs[0]) && OneMessage(After(s, rs[0]), rs[1..]))
  }

  // ---- deltas and snapshots are inverse ----

  function DeltasOf(previous: string, snapshots: seq<string>): seq<string>
    decreases |snapshots|
  {
    if snapshots == [] then []
    else [DeltaOf(previous, snapshots[0])] + DeltasOf(snapshots[0], snapshots[1..])
  }

  function Latest(previous: string, snapshots: seq<string>): string {
    if snapshots == [] then previous else snapshots[|snapshots| - 1]
  }

  predicate Extending(previous: string, snapshots: seq<string>)
    decreases |snapshots|
  {
    snapshots == [] || (previous <= snapshots[0] && Extending(snapshots[0], snapshots[1..]))
  }

  lemma {:induction false} DeltasJoin(previous: string, snapshots: seq<string>)
    requires Extending(previous, snapshots)
    ensures previous + Join(DeltasOf(previous, snapshots)) == Latest(previous, snapshots)
    decreases |snapshots|
  {
    if snapshots == [] {
      assert previous + "" == previous;
    } else {
      DeltasJoin(snapshots[0], snapshots[1..]);
      var deltas := DeltasOf(previous, snapshots);
      assert deltas[1..] == DeltasOf(snapshots[0], snapshots[1..]);
      assert previous + DeltaOf(previous, snapshots[0]) == snapshots[0];
      assert previous + Join(deltas) == previous + DeltaOf(previous, snapshots[0]) + Join(deltas[1..]);
    }
  }

  lemma {:induction false} DeltasOverrun(previous: string, snapshots: seq<string>)
    ensures |previous| + |Join(DeltasOf(previous, snapshots))| >= |Latest(previous, snapshots)|
    ensures previous != "" && !Extending(previous, snapshots) ==>
              |previous| + |Join(DeltasOf(previous, snapshots))| > |Latest(previous, snapshots)|
    decreases |snapshots|
  {
    if snapshots != [] {
      DeltasOverrun(snapshots[0], snapshots[1..]);
      assert DeltasOf(previous, snapshots)[1..] == DeltasOf(snapshots[0], snapshots[1..]);
    }
  }

  /** The deltas join to the latest snapshot exactly when every snapshot extends the one before. */
  lemma {:induction false} DeltasJoinIff(snapshots: seq<string>)
    ensures Join(DeltasOf("", snapshots)) == Latest("", snapshots) <==> Extending("", snapshots)
    decreases |snapshots|
  {
    if Extending("", snapshots) {
      DeltasJoin("", snapshots);
    } else {
      FirstNonEmpty(snapshots);
    }
  }

  lemma {:induction false} FirstNonEmpty(snapshots: seq<string>)
    requires !Extending("", snapshots)
    ensures |Join(DeltasOf("", snapshots))| > |Latest("", snapshots)|
    decreases |snapshots|
  {
    assert DeltasOf("", snapshots)[1..] == DeltasOf(snapshots[0], snapshots[1..]);
    if snapshots[0] == "" {
      FirstNonEmpty(snapshots[1..]);
    } else {
      DeltasOverrun(snapshots[0], snapshots[1..]);
    }
  }

  /** What is sent of a part depends on its own snapshots only, however parts interleave. */
  lemma {:induction false} PartsAreIndependent(s: TextState, rs: seq<Record>, part: string)
    requires OneMessage(s, rs)
    ensures SentOf(s, rs, part) == DeltasOf(Previous(s, part), Snapshots(s, rs, part))
    decreases |rs|
  {
    if rs != [] {
      var next := After(s, rs[0]);
      PartsAreIndependent(next, rs[1..], part);
      assert Turned(s, rs[0]).parts == s.parts;
      var d := Snapshot(Turned(s, rs[0]), rs[0]);
      var rest := Snapshots(next, rs[1..], part);
      if d.Some? && d.value.part == part {
        assert ([d.value.text] + rest)[1..] == rest;
      } else {
        assert [] + rest == rest && [] + SentOf(next, rs[1..], part) == SentOf(next, rs[1..], part);
      }
    }
  }

  /**
   Within one message, the text sent of a part joins to its latest snapshot exactly when every
   snapshot extends the one before.
   */
  lemma SentTextIsLatestIff(s: TextState, rs: seq<Record>, part: string)
    requires OneMessage(s, rs) && part !in s.parts
    ensures Join(SentOf(s, rs, part)) == Latest("", Snapshots(s, rs, part)) <==> Extending("", Snapshots(s, rs, part))
  {
    PartsAreIndependent(s, rs, part);
    DeltasJoinIff(Snapshots(s, rs, part));
  }

  /** A prompt, and an answer under another id or none, begin another message and forget every part. */
  lemma ClearingForgets(s: TextState, r: Record)
    requires r.eventType in {"user", "assistant"}
    ensures
      var id := AsStr(At(r.payload, "info", "id"));
      var s' := After(s, r);
      && s'.role == Some(r.eventType)
      && s'.messageId == (if r.eventType == "assistant" then id else None)
      && s'.parts == (if r.eventType == "assistant" && id.Some? && id == s.messageId then s.parts else map[])
      && Sent(s, r).None?
  {
  }

  /** The part that a record shows, and its text so far. */
  predicate ShowsPart(r: Record, part: string, text: string) {
    match Get(r.payload, "part")
    case None => false
    case Some(shown) =>
      && AsStr(Get(shown, "text")) == Some(text)
      && part == match (Get(shown, "id"), Get(shown, "partID"), Get(shown, "partId"))
                 case (Some(String(id)), _, _) => id
                 case (None, Some(String(id)), _) => id
                 case (None, None, Some(String(id))) => id
                 case _ => "default"
  }

  /**
   Texts of the assistant and reasoning are sent, and nothing else is: what is new in the part, if it extends what was
   there, and all of it otherwise. The part is then as shown.
   */
  lemma SentIff(s: TextState, r: Record, part: string, text: string)
    requires ShowsPart(r, part, text)
    ensures
      var before := if part in s.parts then s.parts[part] else "";
      if r.eventType == "reasoning" || (r.eventType == "text" && s.role == Some("assistant"))
      then
        && After(s, r) == s.(parts := s.parts[part := text])
        && Sent(s, r).Some? && Sent(s, r).value.part == part
        && (if before <= text then before + Sent(s, r).value.text == text else Sent(s, r).value.text == text)
      else Sent(s, r).None? && (r.eventType !in {"user", "assistant"} ==> After(s, r) == s)
  {
  }

  lemma NothingShown(s: TextState, r: Record)
    requires r.eventType !in {"user", "assistant"} && forall part, text :: !ShowsPart(r, part, text)
    ensures Sent(s, r).None? && After(s, r) == s
  {
    var d := Snapshot(s, r);
    assert d.Some? ==> ShowsPart(r, d.value.part, d.value.text);
  }
}
