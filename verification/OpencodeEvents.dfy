/**
 The normaliser of OpenCode v2 events: it keeps, per session, the tools in flight and the
 text accumulated so far, and presents each event in the cumulative shape of version 1.
 */
module OpencodeEvents {
  import opened Wrappers
  import opened Json
  import opened Text
  import PartText

  datatype Event = Event(kind: string, data: Value)

  type ToolKey = (string, string)
  type TextKey = (string, string, nat)

  datatype Tables = Tables(tools: map<ToolKey, (string, Value)>, text: map<TextKey, string>)

  datatype Body =
    | ToolPart(sid: string, id: string, name: string, status: string, input: Value, output: string, error: Value)
    | TextPart(sid: string, messageId: string, reasoning: bool, text: string)
    | UserMessage(sid: string, inboxId: Value, content: Value)
    | Busy
    | Question(form: Option<Value>)
    | Unchanged

  /** The event type presented, and the body added to it; the original travels along. */
  datatype Mapped = Mapped(kind: string, body: Body)

  function Sid(e: Event): string {
    OrElse(AsStr(Get(e.data, "sessionID")), "")
  }

  function Id(e: Event): Option<string> {
    AsStr(Get(e.data, "id"))
  }

  function KeyOf(e: Event): Option<TextKey> {
    var message, ordinal := AsStr(Get(e.data, "assistantMessageID")), AsNat(Field(e.data, "ordinal"));
    if message.Some? && ordinal.Some? then Some((Sid(e), message.value, ordinal.value)) else None
  }

  function TextsOf(items: seq<Value>): seq<string> {
    if items == [] then []
    else
      var text := AsStr(Get(items[0], "text"));
      (if text.Some? then [text.value] else []) + TextsOf(items[1..])
  }

  function JoinLines(lines: seq<string>): string {
    if lines == [] then "" else if |lines| == 1 then lines[0] else lines[0] + "\n" + JoinLines(lines[1..])
  }

  function Output(content: Value): string {
    JoinLines(TextsOf(OrElse(AsArray(Some(content)), [])))
  }

  predicate IsTool(e: Event) {
    e.kind == "session.tool.called" || e.kind == "session.tool.success" || e.kind == "session.tool.failed"
  }

  predicate IsDelta(e: Event) {
    e.kind == "session.text.delta" || e.kind == "session.reasoning.delta"
  }

  predicate IsEnded(e: Event) {
    e.kind == "session.text.ended" || e.kind == "session.reasoning.ended"
  }

  predicate Terminates(e: Event) {
    || e.kind == "session.execution.succeeded" || e.kind == "session.execution.interrupted"
    || e.kind == "session.execution.failed"
  }

  function Without(t: Tables, sid: string): Tables {
    Tables(map k | k in t.tools && k.0 != sid :: t.tools[k], map k | k in t.text && k.0 != sid :: t.text[k])
  }

  // ---- one event ----

  function DeltaText(e: Event): string {
    OrElse(AsStr(Get(e.data, "delta")), "")
  }

  function TextAt(t: Tables, key: TextKey): string {
    if key in t.text then t.text[key] else ""
  }

  function ToolAt(t: Tables, key: ToolKey): (string, Value) {
    if key in t.tools then t.tools[key] else ("", Null)
  }

  /** The tool an event is about, as it stands once the event is taken in. */
  function ToolNow(t: Tables, e: Event, key: ToolKey): (string, Value) {
    if e.kind == "session.tool.called" then (ToolAt(t, key).0, Field(e.data, "input")) else ToolAt(t, key)
  }

  function Next(t: Tables, e: Event): Tables {
    if e.kind == "session.tool.input.started" then
      var id, name := Id(e), AsStr(Get(e.data, "name"));
      if id.None? || name.None? then t else t.(tools := t.tools[(Sid(e), id.value) := (name.value, Null)])
    else if IsTool(e) then
      var id := Id(e);
      if id.None? then t
      else
        var key := (Sid(e), id.value);
        if e.kind == "session.tool.called" then t.(tools := t.tools[key := ToolNow(t, e, key)])
        else t.(tools := t.tools - {key})
    else if IsDelta(e) then
      var key := KeyOf(e);
      if key.None? then t else t.(text := t.text[key.value := TextAt(t, key.value) + DeltaText(e)])
    else if IsEnded(e) then
      var key := KeyOf(e);
      if key.None? then t else t.(text := t.text - {key.value})
    else if Terminates(e) then Without(t, Sid(e))
    else t
  }

  function Status(e: Event): string {
    if e.kind == "session.tool.called" then "running" else if e.kind == "session.tool.success" then "completed" else "error"
  }

  function Presented(t: Tables, e: Event): Option<Mapped> {
    if e.kind == "session.tool.input.started" || e.kind == "session.idle" then None
    else if IsTool(e) then
      var id := Id(e);
      if id.None? then None
      else
        var tool := ToolNow(t, e, (Sid(e), id.value));
        Some(Mapped("message.part.updated", ToolPart(Sid(e), id.value, tool.0, Status(e), tool.1,
                                                     Output(Field(e.data, "content")), Field(e.data, "error"))))
    else if e.kind == "session.inbox.enqueued" && AsStr(Get(Field(e.data, "item"), "type")) == Some("user") then
      Some(Mapped("message.updated", UserMessage(Sid(e), Field(e.data, "inboxID"),
                                                 Field(Field(Field(e.data, "item"), "payload"), "text"))))
    else if IsDelta(e) || IsEnded(e) then
      var key := KeyOf(e);
      if key.None? then None
      else
        var text := if IsDelta(e) then TextAt(t, key.value) + DeltaText(e) else OrElse(AsStr(Get(e.data, "text")), "");
        Some(Mapped("message.part.updated",
                    TextPart(Sid(e), key.value.1, e.kind == "session.reasoning.delta" || e.kind == "session.reasoning.ended", text)))
    else if e.kind == "session.execution.started" || e.kind == "session.step.started" then Some(Mapped("session.status", Busy))
    else if e.kind == "session.execution.failed" then Some(Mapped("session.error", Unchanged))
    else if Terminates(e) then Some(Mapped("session.idle", Unchanged))
    else if e.kind == "session.compaction.started" then Some(Mapped("session.compacted", Unchanged))
    else if e.kind == "form.created" then Some(Mapped("message.part.updated", Question(Some(Field(e.data, "form")))))
    else if e.kind == "form.replied" || e.kind == "form.cancelled" then Some(Mapped("message.part.updated", Question(None)))
    else Some(Mapped(e.kind, Unchanged))
  }

  // ---- the normaliser, changed in place ----

  class Events {
    var tools: map<ToolKey, (string, Value)>
    var text: map<TextKey, string>

    ghost function State(): Tables
      reads this
    {
      Tables(tools, text)
    }

    constructor ()
      ensures State() == Tables(map[], map[])
    {
      tools, text := map[], map[];
    }

    method MissingTool(e: Event) returns (missing: bool)
      ensures missing <==> IsTool(e) && (Sid(e), OrElse(Id(e), "")) !in tools
    {
      missing := IsTool(e) && (Sid(e), OrElse(Id(e), "")) !in tools;
    }

    /** Takes the tools of the messages of a session, later parts over earlier ones. */
    method SeedTools(sid: string, messages: seq<Value>)
      modifies this`tools
      ensures State() == Seeded(old(State()), sid, messages)
    {
      var i := 0;
      while i < |messages|
        invariant 0 <= i <= |messages|
        invariant State() == Seeded(old(State()), sid, messages[..i])
      {
        assert messages[..i + 1][..i] == messages[..i];
        var parts := PartsOf(messages[i]);
        ghost var before := State();
        var j := 0;
        while j < |parts|
          invariant 0 <= j <= |parts|
          invariant State() == SeededParts(before, sid, parts[..j])
        {
          assert parts[..j + 1][..j] == parts[..j];
          var id, name := AsStr(Get(parts[j], "id")), AsStr(Get(parts[j], "tool"));
          if AsStr(Get(parts[j], "type")) == Some("tool") && id.Some? && name.Some? {
            tools := tools[(sid, id.value) := (name.value, Field(Field(parts[j], "state"), "input"))];
          }
          j := j + 1;
        }
        assert parts[..j] == parts;
        i := i + 1;
      }
      assert messages[..i] == messages;
    }

    method NormalizeTool(e: Event) returns (mapped: Option<Mapped>)
      requires IsTool(e)
      modifies this`tools
      ensures State() == Next(old(State()), e) && mapped == Presented(old(State()), e)
    {
      var id := Id(e);
      if id.None? {
        return None;
      }
      var key := (Sid(e), id.value);
      var tool := if key in tools then tools[key] else ("", Null);
      if e.kind == "session.tool.called" {
        tool := (tool.0, Field(e.data, "input"));
      }
      tools := tools[key := tool];
      mapped := Some(Mapped("message.part.updated", ToolPart(Sid(e), id.value, tool.0, Status(e), tool.1,
                                                             Output(Field(e.data, "content")), Field(e.data, "error"))));
      if Status(e) != "running" {
        tools := tools - {key};
      }
    }

    method NormalizeText(e: Event) returns (mapped: Option<Mapped>)
      requires IsDelta(e) || IsEnded(e)
      modifies this`text
      ensures State() == Next(old(State()), e) && mapped == Presented(old(State()), e)
    {
      var key := KeyOf(e);
      if key.None? {
        return None;
      }
      var now: string;
      if IsDelta(e) {
        now := (if key.value in text then text[key.value] else "") + DeltaText(e);
        text := text[key.value := now];
      } else {
        text := text - {key.value};
        now := OrElse(AsStr(Get(e.data, "text")), "");
      }
      return Some(Mapped("message.part.updated",
                         TextPart(Sid(e), key.value.1, e.kind == "session.reasoning.delta" || e.kind == "session.reasoning.ended", now)));
    }

    method Normalize(e: Event) returns (mapped: Option<Mapped>)
      modifies this
      ensures State() == Next(old(State()), e) && mapped == Presented(old(State()), e)
    {
      mapped := Presented(Tables(tools, text), e);
      if e.kind == "session.tool.input.started" {
        var id, name := Id(e), AsStr(Get(e.data, "name"));
        if id.Some? && name.Some? {
          tools := tools[(Sid(e), id.value) := (name.value, Null)];
        }
      } else if IsTool(e) {
        mapped := NormalizeTool(e);
      } else if IsDelta(e) || IsEnded(e) {
        mapped := NormalizeText(e);
      } else if Terminates(e) {
        var sid := Sid(e);
        text := map k | k in text && k.0 != sid :: text[k];
        tools := map k | k in tools && k.0 != sid :: tools[k];
      }
    }
  }

  function PartsOf(message: Value): seq<Value> {
    OrElse(AsArray(Get(message, "parts")), [])
  }

  function SeededParts(t: Tables, sid: string, parts: seq<Value>): Tables {
    if parts == [] then t
    else
      var before, part := SeededParts(t, sid, parts[..|parts| - 1]), parts[|parts| - 1];
      var id, name := AsStr(Get(part, "id")), AsStr(Get(part, "tool"));
      if AsStr(Get(part, "type")) == Some("tool") && id.Some? && name.Some?
      then before.(tools := before.tools[(sid, id.value) := (name.value, Field(Field(part, "state"), "input"))])
      else before
  }

  function Seeded(t: Tables, sid: string, messages: seq<Value>): Tables {
    if messages == [] then t
    else
      SeededParts(Seeded(t, sid, messages[..|messages| - 1]), sid,
                  PartsOf(messages[|messages| - 1]))
  }

  // ---- a run of events ----

  function After(t: Tables, events: seq<Event>): Tables {
    if events == [] then t else Next(After(t, events[..|events| - 1]), events[|events| - 1])
  }

  /** The text under a key is over: it ended, or its session did. */
  predicate EndsText(e: Event, key: TextKey) {
    (IsEnded(e) && KeyOf(e) == Some(key)) || (Terminates(e) && Sid(e) == key.0)
  }

  /** The deltas of a key, in order. */
  function Deltas(events: seq<Event>, key: TextKey): seq<string> {
    if events == [] then []
    else
      var last := events[|events| - 1];
      Deltas(events[..|events| - 1], key) + if IsDelta(last) && KeyOf(last) == Some(key) then [DeltaText(last)] else []
  }

  /** From a point where the key has no text, it accumulates exactly its deltas. */
  lemma {:induction false} TextIsJoinedDeltas(t: Tables, events: seq<Event>, key: TextKey)
    requires key !in t.text
    requires forall i :: 0 <= i < |events| ==> !EndsText(events[i], key)
    ensures TextAt(After(t, events), key) == Join(Deltas(events, key))
    decreases |events|
  {
    if events != [] {
      var front, last := events[..|events| - 1], events[|events| - 1];
      TextIsJoinedDeltas(t, front, key);
      assert !EndsText(last, key);
      if IsDelta(last) && KeyOf(last) == Some(key) {
        JoinAppend(Deltas(front, key), DeltaText(last));
      } else {
        assert Deltas(front, key) + [] == Deltas(front, key);
        NextKeepsText(After(t, front), last, key);
      }
    }
  }

  lemma NextKeepsText(t: Tables, e: Event, key: TextKey)
    requires !EndsText(e, key) && !(IsDelta(e) && KeyOf(e) == Some(key))
    ensures TextAt(Next(t, e), key) == TextAt(t, key)
  {
  }

  lemma {:induction false} AfterAppend(t: Tables, a: seq<Event>, b: seq<Event>)
    ensures After(t, a + b) == After(After(t, a), b)
    decreases |b|
  {
    if b == [] {
      assert a + b == a;
    } else {
      AfterAppend(t, a, b[..|b| - 1]);
      assert (a + b)[..|a + b| - 1] == a + b[..|b| - 1];
    }
  }

  lemma EndingForgets(t: Tables, e: Event, key: TextKey)
    requires EndsText(e, key)
    ensures key !in Next(t, e).text
  {
  }

  /**
   The text presented for a delta is the concatenation of all deltas of its key since the key
   last ended or its session last terminated, whatever other events came between.
   */
  lemma PresentedTextIsAllDeltas(t: Tables, before: seq<Event>, ending: Event, since: seq<Event>, delta: Event, key: TextKey)
    requires EndsText(ending, key) && forall i :: 0 <= i < |since| ==> !EndsText(since[i], key)
    requires IsDelta(delta) && KeyOf(delta) == Some(key)
    ensures
      var presented := Presented(After(t, before + [ending] + since), delta);
      && presented.Some? && presented.value.body.TextPart?
      && presented.value.body.text == Join(Deltas(since + [delta], key))
      && presented.value.body.sid == key.0 && presented.value.body.messageId == key.1
  {
    AfterAppend(t, before + [ending], since);
    assert (before + [ending])[..|before|] == before;
    EndingForgets(After(t, before), ending, key);
    TextIsJoinedDeltas(After(t, before + [ending]), since, key);
    assert (since + [delta])[..|since|] == since;
    JoinAppend(Deltas(since, key), DeltaText(delta));
  }

  /** Termination clears the text and the tools of its own session, and nothing else. */
  lemma TerminationClearsItsSession(t: Tables, e: Event)
    requires e.kind in {"session.execution.succeeded", "session.execution.interrupted", "session.execution.failed"}
    ensures Terminates(e) && Sid(e) == OrElse(AsStr(Get(e.data, "sessionID")), "")
    ensures forall key: TextKey :: key in Next(t, e).text <==> key in t.text && key.0 != Sid(e)
    ensures forall key: TextKey :: key in Next(t, e).text ==> Next(t, e).text[key] == t.text[key]
    ensures forall key: ToolKey :: key in Next(t, e).tools <==> key in t.tools && key.0 != Sid(e)
    ensures forall key: ToolKey :: key in Next(t, e).tools ==> Next(t, e).tools[key] == t.tools[key]
  {
  }

  // ---- what each event is shown as ----

  /** The texts of the items, one to a line. */
  predicate IsOutput(content: Value, output: string) {
    match content
    case Array(items) => output == JoinLines(Texts(items))
    case _ => output == ""
  }

  /** The texts of the items that have one, in order. */
  function Texts(items: seq<Value>): (texts: seq<string>)
    ensures |items| == 1 ==> texts == (if AsStr(Get(items[0], "text")).Some? then [AsStr(Get(items[0], "text")).value] else [])
  {
    if items == [] then []
    else
      var last := AsStr(Get(items[|items| - 1], "text"));
      Texts(items[..|items| - 1]) + if last.Some? then [last.value] else []
  }

  lemma {:induction false} TextsAre(items: seq<Value>)
    ensures TextsOf(items) == Texts(items)
    decreases |items|
  {
    if |items| > 1 {
      var inner := items[1..|items| - 1];
      TextsAre(items[..|items| - 1]);
      TextsAre(items[1..]);
      TextsAre(inner);
      assert items[..|items| - 1][1..] == inner == items[1..][..|items| - 2];
      assert items[1..][|items| - 2] == items[|items| - 1];
    }
  }

  /**
   A tool event is shown as a part in state "running", "completed" or "error": under the name known so far, with the
   input of the call itself while it runs and of the call last known once it is over, and with its output and error.
   */
  lemma ToolShownAs(t: Tables, e: Event, id: string)
    requires e.kind in {"session.tool.called", "session.tool.success", "session.tool.failed"} && AsStr(Get(e.data, "id")) == Some(id)
    ensures
      var shown := Presented(t, e);
      var key := (OrElse(AsStr(Get(e.data, "sessionID")), ""), id);
      && shown.Some? && shown.value.kind == "message.part.updated" && shown.value.body.ToolPart?
      && var part := shown.value.body;
      && part.sid == key.0 && part.id == id
      && (part.status == "running" <==> e.kind == "session.tool.called")
      && (part.status == "completed" <==> e.kind == "session.tool.success")
      && (part.status == "error" <==> e.kind == "session.tool.failed")
      && part.name == (if key in t.tools then t.tools[key].0 else "")
      && (part.status == "running" ==> part.input == OrElse(Get(e.data, "input"), Null))
      && (part.status != "running" ==> part.input == if key in t.tools then t.tools[key].1 else Null)
      && IsOutput(OrElse(Get(e.data, "content"), Null), part.output)
      && part.error == OrElse(Get(e.data, "error"), Null)
  {
    match OrElse(Get(e.data, "content"), Null)
    case Array(items) => TextsAre(items);
    case _ =>
  }

  /** The end of a text is shown with the whole text it carries, and reasoning is told from speech. */
  lemma TextShownAs(t: Tables, e: Event, key: TextKey)
    requires e.kind in {"session.text.delta", "session.text.ended", "session.reasoning.delta", "session.reasoning.ended"}
    requires AsStr(Get(e.data, "assistantMessageID")) == Some(key.1) && AsNat(OrElse(Get(e.data, "ordinal"), Null)) == Some(key.2)
    requires key.0 == OrElse(AsStr(Get(e.data, "sessionID")), "")
    ensures
      var shown := Presented(t, e);
      && shown.Some? && shown.value.kind == "message.part.updated" && shown.value.body.TextPart?
      && var part := shown.value.body;
      && part.sid == key.0 && part.messageId == key.1
      && (part.reasoning <==> e.kind in {"session.reasoning.delta", "session.reasoning.ended"})
      && part.text == if e.kind in {"session.text.ended", "session.reasoning.ended"}
                      then OrElse(AsStr(Get(e.data, "text")), "")
                      else (if key in t.text then t.text[key] else "") + OrElse(AsStr(Get(e.data, "delta")), "")
  {
  }

  /** Every text is on a line of its own. */
  lemma {:induction false} OutputGrows(lines: seq<string>, more: string)
    ensures JoinLines(lines + [more]) == if lines == [] then more else JoinLines(lines) + "\n" + more
    decreases |lines|
  {
    if lines == [] {
      assert [] + [more] == [more];
    } else {
      OutputGrows(lines[1..], more);
      assert (lines + [more])[1..] == lines[1..] + [more];
    }
  }

  /** A turn is shown to begin, to end or to fail. */
  lemma TurnShownAs(t: Tables, e: Event)
    ensures e.kind in {"session.execution.started", "session.step.started"} ==> Presented(t, e) == Some(Mapped("session.status", Busy))
    ensures e.kind in {"session.execution.succeeded", "session.execution.interrupted"} ==>
              Presented(t, e) == Some(Mapped("session.idle", Unchanged))
    ensures e.kind == "session.execution.failed" ==> Presented(t, e) == Some(Mapped("session.error", Unchanged))
    ensures e.kind == "session.compaction.started" ==> Presented(t, e) == Some(Mapped("session.compacted", Unchanged))
  {
  }

  /** A form is shown as a question that is asked or answered. */
  lemma FormShownAs(t: Tables, e: Event)
    ensures e.kind == "form.created" ==>
              Presented(t, e) == Some(Mapped("message.part.updated", Question(Some(OrElse(Get(e.data, "form"), Null)))))
    ensures e.kind in {"form.replied", "form.cancelled"} ==> Presented(t, e) == Some(Mapped("message.part.updated", Question(None)))
  {
  }

  /** A prompt of the user is shown as a message; anything else in the inbox passes as it is. */
  lemma PromptShownAs(t: Tables, e: Event)
    requires e.kind == "session.inbox.enqueued"
    ensures
      var item := OrElse(Get(e.data, "item"), Null);
      var payload := OrElse(Get(item, "payload"), Null);
      Presented(t, e) ==
      Some(if AsStr(Get(item, "type")) == Some("user")
           then Mapped("message.updated", UserMessage(OrElse(AsStr(Get(e.data, "sessionID")), ""),
                                                      OrElse(Get(e.data, "inboxID"), Null), OrElse(Get(payload, "text"), Null)))
           else Mapped(e.kind, Unchanged))
  {
  }

  const SHOWN_AS_OTHERS := {
    "session.tool.input.started", "session.idle", "session.tool.called", "session.tool.success", "session.tool.failed",
    "session.inbox.enqueued", "session.text.delta", "session.text.ended", "session.reasoning.delta", "session.reasoning.ended",
    "session.execution.started", "session.step.started", "session.execution.succeeded", "session.execution.interrupted",
    "session.execution.failed", "session.compaction.started", "form.created", "form.replied", "form.cancelled"}

  /** Every other event passes as it is; nothing is shown only of a tool before it is called, of an idle session, and of what has no id. */
  lemma OthersPass(t: Tables, e: Event)
    ensures e.kind !in SHOWN_AS_OTHERS ==> Presented(t, e) == Some(Mapped(e.kind, Unchanged))
    ensures Presented(t, e).None? <==>
              || e.kind == "session.tool.input.started" || e.kind == "session.idle"
              || (e.kind in {"session.tool.called", "session.tool.success", "session.tool.failed"} && AsStr(Get(e.data, "id")).None?)
              || (e.kind in {"session.text.delta", "session.text.ended", "session.reasoning.delta", "session.reasoning.ended"}
                  && (AsStr(Get(e.data, "assistantMessageID")).None? || AsNat(OrElse(Get(e.data, "ordinal"), Null)).None?))
  {
  }

  // ---- tools in flight ----

  predicate Introduces(e: Event, key: ToolKey) {
    && Sid(e) == key.0 && Id(e) == Some(key.1)
    && (e.kind == "session.tool.called" || (e.kind == "session.tool.input.started" && AsStr(Get(e.data, "name")).Some?))
  }

  predicate Retires(e: Event, key: ToolKey) {
    || (IsTool(e) && e.kind != "session.tool.called" && Sid(e) == key.0 && Id(e) == Some(key.1))
    || (Terminates(e) && Sid(e) == key.0)
  }

  predicate ShowsTool(part: Value, id: string) {
    AsStr(Get(part, "type")) == Some("tool") && AsStr(Get(part, "id")) == Some(id) && AsStr(Get(part, "tool")).Some?
  }

  /** Some message has a part that shows the tool. */
  predicate ShowTool(messages: seq<Value>, id: string) {
    exists m :: m in messages && ShowsIn(m, id)
  }

  predicate ShowsIn(message: Value, id: string) {
    match Get(message, "parts")
    case Some(Array(parts)) => exists p :: p in parts && ShowsTool(p, id)
    case _ => false
  }

  lemma {:induction false} SeededPartsTool(t: Tables, sid: string, parts: seq<Value>, key: ToolKey)
    ensures key in SeededParts(t, sid, parts).tools <==>
            key in t.tools || (key.0 == sid && exists p :: p in parts && ShowsTool(p, key.1))
    decreases |parts|
  {
    if parts != [] {
      var front, last := parts[..|parts| - 1], parts[|parts| - 1];
      SeededPartsTool(t, sid, front, key);
      assert last in parts && forall p :: p in parts <==> p in front || p == last;
    }
  }

  /** The last part that shows a tool gives its name and input. */
  lemma LastPartCounts(t: Tables, sid: string, parts: seq<Value>, part: Value, id: string)
    requires ShowsTool(part, id)
    ensures
      var seeded, state := SeededParts(t, sid, parts + [part]).tools, OrElse(Get(part, "state"), Null);
      (sid, id) in seeded && seeded[(sid, id)] == (AsStr(Get(part, "tool")).value, OrElse(Get(state, "input"), Null))
  {
    assert (parts + [part])[..|parts|] == parts;
  }

  lemma {:induction false} SeededTool(t: Tables, sid: string, messages: seq<Value>, key: ToolKey)
    ensures key in Seeded(t, sid, messages).tools <==> key in t.tools || (key.0 == sid && ShowTool(messages, key.1))
    decreases |messages|
  {
    if messages != [] {
      var front, last := messages[..|messages| - 1], messages[|messages| - 1];
      SeededTool(t, sid, front, key);
      SeededPartsTool(Seeded(t, sid, front), sid, PartsOf(last), key);
      assert last in messages && forall m :: m in messages <==> m in front || m == last;
    }
  }

  /** What the normaliser is given: events, and the messages of a session whose tool was missing. */
  datatype Input = Happens(event: Event) | Seeds(sid: string, messages: seq<Value>)

  function AfterInput(t: Tables, input: Input): Tables {
    match input
    case Happens(e) => Next(t, e)
    case Seeds(sid, messages) => Seeded(t, sid, messages)
  }

  function AfterInputs(t: Tables, inputs: seq<Input>): Tables {
    if inputs == [] then t else AfterInput(AfterInputs(t, inputs[..|inputs| - 1]), inputs[|inputs| - 1])
  }

  predicate Shows(input: Input, key: ToolKey) {
    match input
    case Happens(e) => Introduces(e, key)
    case Seeds(sid, messages) => key.0 == sid && ShowTool(messages, key.1)
  }

  predicate Ends(input: Input, key: ToolKey) {
    input.Happens? && Retires(input.event, key)
  }

  /** Nothing from the i-th input on retires the tool. */
  predicate StaysFrom(inputs: seq<Input>, key: ToolKey, i: nat) {
    forall j :: i <= j < |inputs| ==> !Ends(inputs[j], key)
  }

  predicate InFlight(inputs: seq<Input>, key: ToolKey, i: nat) {
    i < |inputs| && Shows(inputs[i], key) && StaysFrom(inputs, key, i + 1)
  }

  lemma NextTool(t: Tables, e: Event, key: ToolKey)
    ensures key in Next(t, e).tools <==> Introduces(e, key) || (key in t.tools && !Retires(e, key))
    ensures key in t.tools && !Introduces(e, key) && !Retires(e, key) ==> Next(t, e).tools[key] == t.tools[key]
  {
  }

  lemma InFlightNext(inputs: seq<Input>, key: ToolKey)
    requires inputs != []
    ensures
      var front, last := inputs[..|inputs| - 1], inputs[|inputs| - 1];
      && (StaysFrom(inputs, key, 0) <==> StaysFrom(front, key, 0) && !Ends(last, key))
      && ((exists i :: InFlight(inputs, key, i)) <==>
          Shows(last, key) || ((exists i :: InFlight(front, key, i)) && !Ends(last, key)))
  {
    var front, last := inputs[..|inputs| - 1], inputs[|inputs| - 1];
    assert inputs == front + [last];
    if Shows(last, key) {
      assert InFlight(inputs, key, |front|);
    } else {
      assert forall i :: InFlight(inputs, key, i) ==> InFlight(front, key, i) && !Ends(last, key);
      assert forall i :: InFlight(front, key, i) && !Ends(last, key) ==> InFlight(inputs, key, i);
    }
  }

  /**
   Whatever is known at first and wherever messages are taken in between events: a tool is
   known exactly when some event or message showed it, or it was known at first, and no event
   has retired it since.
   */
  lemma {:induction false} KnownIffInFlight(t: Tables, inputs: seq<Input>, key: ToolKey)
    ensures key in AfterInputs(t, inputs).tools <==>
            (key in t.tools && StaysFrom(inputs, key, 0)) || exists i :: InFlight(inputs, key, i)
    decreases |inputs|
  {
    if inputs != [] {
      var front, last := inputs[..|inputs| - 1], inputs[|inputs| - 1];
      KnownIffInFlight(t, front, key);
      InFlightNext(inputs, key);
      match last
      case Happens(e) => NextTool(AfterInputs(t, front), e, key);
      case Seeds(sid, messages) => SeededTool(AfterInputs(t, front), sid, messages, key);
    }
  }

  lemma {:induction false} ToolKept(t: Tables, events: seq<Event>, key: ToolKey)
    requires key in t.tools
    requires forall i :: 0 <= i < |events| ==> !Introduces(events[i], key) && !Retires(events[i], key)
    ensures key in After(t, events).tools && After(t, events).tools[key] == t.tools[key]
    decreases |events|
  {
    if events != [] {
      ToolKept(t, events[..|events| - 1], key);
      NextTool(After(t, events[..|events| - 1]), events[|events| - 1], key);
    }
  }

  /** A result is presented with the name its tool was started under and the input it was last called with. */
  lemma ResultCarriesCall(t: Tables, name: string, started: Event, waiting: seq<Event>, called: Event,
                          working: seq<Event>, result: Event, key: ToolKey)
    requires started.kind == "session.tool.input.started" && Introduces(started, key)
    requires AsStr(Get(started.data, "name")) == Some(name)
    requires called.kind == "session.tool.called" && Introduces(called, key)
    requires IsTool(result) && Retires(result, key)
    requires forall i :: 0 <= i < |waiting| ==> !Introduces(waiting[i], key) && !Retires(waiting[i], key)
    requires forall i :: 0 <= i < |working| ==> !Introduces(working[i], key) && !Retires(working[i], key)
    ensures
      var presented := Presented(After(t, [started] + waiting + [called] + working), result);
      && presented.Some? && presented.value.body.ToolPart?
      && presented.value.body.sid == key.0 && presented.value.body.id == key.1
      && presented.value.body.name == name
      && presented.value.body.input == Field(called.data, "input")
      && presented.value.body.status == if result.kind == "session.tool.success" then "completed" else "error"
  {
    var begun := Next(t, started);
    assert [started][..0] == [];
    AfterAppend(t, [started], waiting);
    ToolKept(begun, waiting, key);
    var before := [started] + waiting;
    assert (before + [called])[..|before|] == before;
    AfterAppend(t, before + [called], working);
    ToolKept(After(t, before + [called]), working, key);
  }

  // ---- cumulative text and deltas ----

  function Cumulative(before: string, deltas: seq<string>): seq<string>
    decreases |deltas|
  {
    if deltas == [] then [] else [before + deltas[0]] + Cumulative(before + deltas[0], deltas[1..])
  }

  /** What the normaliser accumulates, the projection takes apart again into the same deltas. */
  lemma {:induction false} DeltasOfCumulative(before: string, deltas: seq<string>)
    ensures PartText.DeltasOf(before, Cumulative(before, deltas)) == deltas
    ensures PartText.Extending(before, Cumulative(before, deltas))
    decreases |deltas|
  {
    if deltas != [] {
      var now := before + deltas[0];
      DeltasOfCumulative(now, deltas[1..]);
      var texts := Cumulative(before, deltas);
      assert texts[0] == now && texts[1..] == Cumulative(now, deltas[1..]);
      assert before <= now && now[|before|..] == deltas[0];
      assert deltas == [deltas[0]] + deltas[1..];
    }
  }
}
