/**
 The projection of transcript records to client updates: which tools it opens and closes,
 for the four shapes in which backends report them.
 */
module Projection {
  import opened Wrappers
  import opened Json
  import opened PartText

  datatype Status = Pending | InProgress | Completed | Failed

  datatype PlanEntry = PlanEntry(content: string, status: string, priority: string)

  datatype Update =
    | Thought(text: string)
    | Plan(entries: seq<PlanEntry>)
    | ToolCall(id: string, title: string, status: Status)
    | ToolUpdate(id: string, status: Status)

  /** What text scanning yields: the calls embedded in a script, and a relaxed JSON value. */
  datatype Parser = Parser(embedded: string -> seq<(string, Value)>, relaxed: string -> Option<Value>)

  // ---- which tools are open after a stream of updates ----

  predicate Closes(u: Update, id: string) {
    u.ToolUpdate? && u.id == id && (u.status == Completed || u.status == Failed)
  }

  function Applied(open: set<string>, u: Update): set<string> {
    if u.ToolCall? then open + {u.id}
    else if u.ToolUpdate? && Closes(u, u.id) then open - {u.id}
    else open
  }

  function OpenAfter(open: set<string>, updates: seq<Update>): set<string> {
    if updates == [] then open else Applied(OpenAfter(open, updates[..|updates| - 1]), updates[|updates| - 1])
  }

  /** No call opens a tool that is open. */
  predicate NoReopening(open: set<string>, updates: seq<Update>) {
    updates == []
    || (var front, last := updates[..|updates| - 1], updates[|updates| - 1];
        NoReopening(open, front) && (last.ToolCall? ==> last.id !in OpenAfter(open, front)))
  }

  // ---- one record ----

  datatype Out = Out(open: set<string>, updates: seq<Update>)

  function Opened(open: set<string>, id: string, title: string, status: Status): Out {
    if id in open then Out(open, []) else Out(open + {id}, [ToolCall(id, title, status)])
  }

  function Closed(open: set<string>, id: string, status: Status): Out
    requires status == Completed || status == Failed
  {
    Out(open - {id}, [ToolUpdate(id, status)])
  }

  function ToolId(r: Record, name: string): string {
    match AsStr(GetEither(r.payload, "call_id", "id"))
    case Some(id) => id
    case None =>
      "slopd-" + OrElse(r.paneId, "pane") + "-" + Decimal(OrElse(r.cursor, 0)) + "-" + name
  }

  function DecodedInput(parser: Parser, input: Option<Value>): Value {
    match input
    case None => Null
    case Some(String(s)) => OrElse(parser.relaxed(s), Object(map["input" := String(s)]))
    case Some(v) => v
  }

  function PlanEntryOf(entry: Value): Option<PlanEntry> {
    match AsStr(GetEither(entry, "step", "content"))
    case None => None
    case Some(content) =>
      var status := OrElse(AsStr(Get(entry, "status")), "");
      var priority := OrElse(AsStr(Get(entry, "priority")), "");
      Some(PlanEntry(content,
                     if status == "completed" then "completed"
                     else if status == "in_progress" || status == "running" then "in_progress" else "pending",
                     if priority == "high" || priority == "low" then priority else "medium"))
  }

  function PlanEntries(items: seq<Value>): seq<PlanEntry> {
    if items == [] then []
    else
      var entry := PlanEntryOf(items[0]);
      (if entry.Some? then [entry.value] else []) + PlanEntries(items[1..])
  }

  function PlanUpdates(input: Value): Option<seq<Update>> {
    match AsArray(Get(input, "plan"))
    case None => None
    case Some(items) =>
      var entries := PlanEntries(items);
      if entries == [] then None
      else
        var explanation := OrElse(AsStr(Get(input, "explanation")), "");
        Some((if explanation == "" then [] else [Thought(explanation)]) + [Plan(entries)])
  }

  function FirstCalled(calls: seq<(string, Value)>, plans: bool): Option<(string, Value)> {
    if calls == [] then None
    else if (calls[0].0 == "update_plan") == plans then Some(calls[0])
    else FirstCalled(calls[1..], plans)
  }

  function Title(name: string, calls: seq<(string, Value)>): string {
    if name != "exec" then name
    else
      var other := FirstCalled(calls, false);
      if other.Some? then other.value.0 else "exec_command"
  }

  predicate IsCall(r: Record) {
    r.eventType in {"commandExecution", "fileChange", "plan", "webSearch", "mcpToolCall", "toolCall"}
  }

  function EmbeddedCalls(parser: Parser, r: Record, name: string): seq<(string, Value)> {
    match AsStr(Get(r.payload, "arguments"))
    case None => []
    case Some(arguments) => if name == "exec" then parser.embedded(arguments) else []
  }

  function PlanOf(parser: Parser, r: Record, name: string): Option<seq<Update>> {
    if name == "update_plan" || r.eventType == "plan"
    then PlanUpdates(DecodedInput(parser, Get(r.payload, "arguments")))
    else
      match FirstCalled(EmbeddedCalls(parser, r, name), true)
      case None => None
      case Some(call) => PlanUpdates(call.1)
  }

  /** A plan takes the place of its tool call, unless the script calls other tools too. */
  predicate PlanOnly(parser: Parser, r: Record, name: string) {
    PlanOf(parser, r, name).Some? && (name != "exec" || FirstCalled(EmbeddedCalls(parser, r, name), false).None?)
  }

  /** A Codex call or result. */
  function CodexOut(parser: Parser, open: set<string>, r: Record): Out {
    var name := AsStr(Get(r.payload, "name"));
    var call :=
      if name.None? || !IsCall(r) then Out(open, [])
      else
        var plan := OrElse(PlanOf(parser, r, name.value), []);
        if PlanOnly(parser, r, name.value) then Out(open, plan)
        else
          var tool := Opened(open, ToolId(r, name.value), Title(name.value, EmbeddedCalls(parser, r, name.value)), InProgress);
          tool.(updates := plan + tool.updates);
    var id := AsStr(Get(r.payload, "call_id"));
    if r.eventType == "toolResult" && id.Some? && id.value in call.open then
      var result := Closed(call.open, id.value, Completed);
      result.(updates := call.updates + result.updates)
    else call
  }

  /** Whether a plan took the place of the whole record. */
  predicate Ends(parser: Parser, r: Record) {
    var name := AsStr(Get(r.payload, "name"));
    name.Some? && IsCall(r) && PlanOnly(parser, r, name.value)
  }

  /** An OpenCode tool part. */
  function PartOut(open: set<string>, r: Record): Out {
    var part := Get(r.payload, "part");
    if r.eventType != "tool" || part.None? then Out(open, [])
    else
      var name := OrElse(AsStr(Get(part.value, "tool")), "tool");
      var id := OrElse(AsStr(GetEither(part.value, "callID", "callId")), ToolId(r, name));
      var status := OrElse(AsStr(At(part.value, "state", "status")), "in_progress");
      if status == "pending" then Opened(open, id, Title(name, []), Pending)
      else if status == "running" then
        if id in open then Out(open, [ToolUpdate(id, InProgress)]) else Opened(open, id, Title(name, []), InProgress)
      else if status == "completed" then Closed(open, id, Completed)
      else if status == "error" || status == "failed" then Closed(open, id, Failed)
      else Out(open, [])
  }

  /** A Claude content block. */
  function BlockOut(open: set<string>, r: Record, block: Value): Out {
    var kind := AsStr(Get(block, "type"));
    if kind == Some("tool_use") then
      var name := OrElse(AsStr(Get(block, "name")), "tool");
      Opened(open, OrElse(AsStr(Get(block, "id")), ToolId(r, name)), Title(name, []), InProgress)
    else if kind == Some("tool_result") then
      match AsStr(GetEither(block, "tool_use_id", "toolUseId"))
      case Some(id) => Closed(open, id, Completed)
      case None => Out(open, [])
    else Out(open, [])
  }

  function BlocksOut(open: set<string>, r: Record, blocks: seq<Value>): Out {
    if blocks == [] then Out(open, [])
    else
      var before := BlocksOut(open, r, blocks[..|blocks| - 1]);
      var out := BlockOut(before.open, r, blocks[|blocks| - 1]);
      out.(updates := before.updates + out.updates)
  }

  function Content(r: Record): seq<Value> {
    OrElse(AsArray(At(r.payload, "message", "content")), [])
  }

  function RecordOut(parser: Parser, open: set<string>, r: Record): Out {
    var codex := CodexOut(parser, open, r);
    if Ends(parser, r) then codex
    else
      var part := PartOut(codex.open, r);
      var blocks := BlocksOut(part.open, r, Content(r));
      Out(blocks.open, codex.updates + part.updates + blocks.updates)
  }

  function RecordsOut(parser: Parser, open: set<string>, rs: seq<Record>): Out {
    if rs == [] then Out(open, [])
    else
      var before := RecordsOut(parser, open, rs[..|rs| - 1]);
      var out := RecordOut(parser, before.open, rs[|rs| - 1]);
      out.(updates := before.updates + out.updates)
  }

  // ---- the projection, changed in place ----

  class Projector {
    var openTools: set<string>

    constructor ()
      ensures openTools == {}
    {
      openTools := {};
    }

    method Open(id: string, title: string, status: Status) returns (updates: seq<Update>)
      modifies this
      ensures Out(openTools, updates) == Opened(old(openTools), id, title, status)
    {
      if id in openTools {
        return [];
      }
      openTools := openTools + {id};
      return [ToolCall(id, title, status)];
    }

    method CodexUpdates(parser: Parser, r: Record) returns (updates: seq<Update>, done: bool)
      modifies this
      ensures Out(openTools, updates) == CodexOut(parser, old(openTools), r) && done == Ends(parser, r)
    {
      updates := [];
      var name := AsStr(Get(r.payload, "name"));
      if name.Some? && IsCall(r) {
        var embedded := EmbeddedCalls(parser, r, name.value);
        var plan := PlanOf(parser, r, name.value);
        if plan.Some? {
          updates := plan.value;
          if name.value != "exec" || FirstCalled(embedded, false).None? {
            return updates, true;
          }
        }
        var call := Open(ToolId(r, name.value), Title(name.value, embedded), InProgress);
        updates := updates + call;
      }
      var id := AsStr(Get(r.payload, "call_id"));
      if r.eventType == "toolResult" && id.Some? && id.value in openTools {
        openTools := openTools - {id.value};
        updates := updates + [ToolUpdate(id.value, Completed)];
      }
      done := false;
    }

    method PartUpdates(r: Record) returns (updates: seq<Update>)
      modifies this
      ensures Out(openTools, updates) == PartOut(old(openTools), r)
    {
      updates := [];
      var part := Get(r.payload, "part");
      if r.eventType == "tool" && part.Some? {
        var name := OrElse(AsStr(Get(part.value, "tool")), "tool");
        var id := OrElse(AsStr(GetEither(part.value, "callID", "callId")), ToolId(r, name));
        var status := OrElse(AsStr(At(part.value, "state", "status")), "in_progress");
        if status == "pending" || status == "running" {
          if id !in openTools {
            updates := Open(id, Title(name, []), if status == "pending" then Pending else InProgress);
          } else if status == "running" {
            updates := [ToolUpdate(id, InProgress)];
          }
        } else if status == "completed" {
          openTools := openTools - {id};
          updates := [ToolUpdate(id, Completed)];
        } else if status == "error" || status == "failed" {
          openTools := openTools - {id};
          updates := [ToolUpdate(id, Failed)];
        }
      }
    }

    method BlockUpdates(r: Record) returns (updates: seq<Update>)
      modifies this
      ensures Out(openTools, updates) == BlocksOut(old(openTools), r, Content(r))
    {
      updates := [];
      var content := Content(r);
      var i := 0;
      while i < |content|
        invariant 0 <= i <= |content|
        invariant Out(openTools, updates) == BlocksOut(old(openTools), r, content[..i])
      {
        var block := content[i];
        assert content[..i + 1][..i] == content[..i];
        i := i + 1;
        var kind := AsStr(Get(block, "type"));
        if kind == Some("tool_use") {
          var name := OrElse(AsStr(Get(block, "name")), "tool");
          var more := Open(OrElse(AsStr(Get(block, "id")), ToolId(r, name)), Title(name, []), InProgress);
          updates := updates + more;
        } else if kind == Some("tool_result") {
          var id := AsStr(GetEither(block, "tool_use_id", "toolUseId"));
          if id.None? {
            continue;
          }
          openTools := openTools - {id.value};
          updates := updates + [ToolUpdate(id.value, Completed)];
        }
      }
      assert content[..i] == content;
    }

    method ToolUpdates(parser: Parser, r: Record) returns (updates: seq<Update>)
      modifies this
      ensures Out(openTools, updates) == RecordOut(parser, old(openTools), r)
    {
      var done;
      updates, done := CodexUpdates(parser, r);
      if done {
        return;
      }
      var part := PartUpdates(r);
      var blocks := BlockUpdates(r);
      updates := updates + part + blocks;
    }

    /** Closes every open tool, each once, in no particular order. */
    method FinishOpenTools() returns (updates: seq<Update>)
      modifies this
      ensures openTools == {} && |updates| == |old(openTools)|
      ensures forall id :: id in old(openTools) <==> ToolUpdate(id, Completed) in updates
      ensures forall i :: 0 <= i < |updates| ==> updates[i].ToolUpdate? && updates[i].status == Completed
    {
      updates := [];
      while openTools != {}
        invariant openTools <= old(openTools) && |updates| + |openTools| == |old(openTools)|
        invariant forall id :: id in old(openTools) && id !in openTools <==> ToolUpdate(id, Completed) in updates
        invariant forall i :: 0 <= i < |updates| ==> updates[i].ToolUpdate? && updates[i].status == Completed
        decreases |openTools|
      {
        var id :| id in openTools;
        openTools := openTools - {id};
        updates := updates + [ToolUpdate(id, Completed)];
      }
    }
  }

  // ---- composing streams of updates ----

  lemma {:induction false} OpenAfterAppend(open: set<string>, a: seq<Update>, b: seq<Update>)
    ensures OpenAfter(open, a + b) == OpenAfter(OpenAfter(open, a), b)
    ensures NoReopening(open, a) && NoReopening(OpenAfter(open, a), b) ==> NoReopening(open, a + b)
    decreases |b|
  {
    if b == [] {
      assert a + b == a;
    } else {
      OpenAfterAppend(open, a, b[..|b| - 1]);
      assert (a + b)[..|a + b| - 1] == a + b[..|b| - 1];
    }
  }

  /** What a step reports accounts for the tools it leaves open, and reopens none. */
  predicate Accounts(before: set<string>, out: Out) {
    out.open == OpenAfter(before, out.updates) && NoReopening(before, out.updates)
  }

  lemma AccountsThen(before: set<string>, first: Out, second: Out)
    requires Accounts(before, first) && Accounts(first.open, second)
    ensures Accounts(before, Out(second.open, first.updates + second.updates))
  {
    OpenAfterAppend(before, first.updates, second.updates);
  }

  lemma One(open: set<string>, u: Update)
    ensures OpenAfter(open, [u]) == Applied(open, u)
    ensures NoReopening(open, [u]) <==> (u.ToolCall? ==> u.id !in open)
  {
    assert [u][..0] == [];
  }

  lemma OpenedAccounts(open: set<string>, id: string, title: string, status: Status)
    ensures Accounts(open, Opened(open, id, title, status))
  {
    One(open, ToolCall(id, title, status));
  }

  lemma ClosedAccounts(open: set<string>, id: string, status: Status)
    requires status == Completed || status == Failed
    ensures Accounts(open, Closed(open, id, status))
  {
    One(open, ToolUpdate(id, status));
  }

  lemma PlanAccounts(open: set<string>, parser: Parser, r: Record, name: string)
    ensures Accounts(open, Out(open, OrElse(PlanOf(parser, r, name), [])))
  {
    var plan := OrElse(PlanOf(parser, r, name), []);
    if plan != [] {
      var last := plan[|plan| - 1];
      assert plan == plan[..|plan| - 1] + [last] && last.Plan?;
      One(open, last);
      if |plan| > 1 {
        assert plan[..|plan| - 1] == [plan[0]] && plan[0].Thought?;
        One(open, plan[0]);
      } else {
        assert plan[..0] == [];
      }
    }
  }

  lemma CodexAccounts(parser: Parser, open: set<string>, r: Record)
    ensures Accounts(open, CodexOut(parser, open, r))
  {
    var name := AsStr(Get(r.payload, "name"));
    if name.Some? && IsCall(r) {
      PlanAccounts(open, parser, r, name.value);
      var plan := Out(open, OrElse(PlanOf(parser, r, name.value), []));
      var id, title := ToolId(r, name.value), Title(name.value, EmbeddedCalls(parser, r, name.value));
      OpenedAccounts(open, id, title, InProgress);
      AccountsThen(open, plan, Opened(open, id, title, InProgress));
    } else if r.eventType == "toolResult" {
      var id := AsStr(Get(r.payload, "call_id"));
      if id.Some? {
        ClosedAccounts(open, id.value, Completed);
        assert [] + Closed(open, id.value, Completed).updates == Closed(open, id.value, Completed).updates;
      }
    }
  }

  lemma PartAccounts(open: set<string>, r: Record)
    ensures Accounts(open, PartOut(open, r))
  {
    var part := Get(r.payload, "part");
    if r.eventType == "tool" && part.Some? {
      var name := OrElse(AsStr(Get(part.value, "tool")), "tool");
      var id := OrElse(AsStr(GetEither(part.value, "callID", "callId")), ToolId(r, name));
      OpenedAccounts(open, id, Title(name, []), Pending);
      OpenedAccounts(open, id, Title(name, []), InProgress);
      ClosedAccounts(open, id, Completed);
      ClosedAccounts(open, id, Failed);
      One(open, ToolUpdate(id, InProgress));
    }
  }

  lemma {:induction false} BlocksAccount(open: set<string>, r: Record, blocks: seq<Value>)
    ensures Accounts(open, BlocksOut(open, r, blocks))
    decreases |blocks|
  {
    if blocks != [] {
      var before := BlocksOut(open, r, blocks[..|blocks| - 1]);
      var block := blocks[|blocks| - 1];
      BlocksAccount(open, r, blocks[..|blocks| - 1]);
      BlockAccounts(before.open, r, block);
      AccountsThen(open, before, BlockOut(before.open, r, block));
    }
  }

  lemma BlockAccounts(open: set<string>, r: Record, block: Value)
    ensures Accounts(open, BlockOut(open, r, block))
  {
    var name := OrElse(AsStr(Get(block, "name")), "tool");
    OpenedAccounts(open, OrElse(AsStr(Get(block, "id")), ToolId(r, name)), Title(name, []), InProgress);
    var id := AsStr(GetEither(block, "tool_use_id", "toolUseId"));
    if id.Some? {
      ClosedAccounts(open, id.value, Completed);
    }
  }

  lemma RecordAccounts(parser: Parser, open: set<string>, r: Record)
    ensures Accounts(open, RecordOut(parser, open, r))
  {
    var codex := CodexOut(parser, open, r);
    CodexAccounts(parser, open, r);
    if !Ends(parser, r) {
      var part := PartOut(codex.open, r);
      PartAccounts(codex.open, r);
      AccountsThen(open, codex, part);
      BlocksAccount(part.open, r, Content(r));
      AccountsThen(open, Out(part.open, codex.updates + part.updates), BlocksOut(part.open, r, Content(r)));
    }
  }

  lemma {:induction false} RecordsAccount(parser: Parser, open: set<string>, rs: seq<Record>)
    ensures Accounts(open, RecordsOut(parser, open, rs))
    decreases |rs|
  {
    if rs != [] {
      var before := RecordsOut(parser, open, rs[..|rs| - 1]);
      RecordsAccount(parser, open, rs[..|rs| - 1]);
      RecordAccounts(parser, before.open, rs[|rs| - 1]);
      AccountsThen(open, before, RecordOut(parser, before.open, rs[|rs| - 1]));
    }
  }

  // ---- open tools, declaratively ----

  /** The update that opens a tool for good: no later one closes it. */
  predicate OpensForGood(updates: seq<Update>, id: string, i: nat) {
    && i < |updates| && updates[i].ToolCall? && updates[i].id == id
    && forall j :: i < j < |updates| ==> !Closes(updates[j], id)
  }

  lemma {:induction false} OpenIffUnclosed(updates: seq<Update>, id: string)
    ensures id in OpenAfter({}, updates) <==> exists i :: OpensForGood(updates, id, i)
    decreases |updates|
  {
    if updates != [] {
      var front, last := updates[..|updates| - 1], updates[|updates| - 1];
      OpenIffUnclosed(front, id);
      assert forall j :: 0 <= j < |front| ==> updates[j] == front[j];
      if last.ToolCall? && last.id == id {
        assert OpensForGood(updates, id, |front|);
      } else if Closes(last, id) {
        assert forall i :: OpensForGood(updates, id, i) ==> i == |front|;
      } else {
        assert forall i :: 0 <= i < |front| ==> (OpensForGood(front, id, i) <==> OpensForGood(updates, id, i));
        assert forall i :: OpensForGood(front, id, i) ==> OpensForGood(updates, id, i);
        assert forall i :: OpensForGood(updates, id, i) ==> OpensForGood(front, id, i);
      }
    }
  }

  lemma {:induction false} ClosedBetween(updates: seq<Update>, i: nat, k: nat)
    requires NoReopening({}, updates)
    requires i < k < |updates| && updates[i].ToolCall? && updates[k].ToolCall? && updates[i].id == updates[k].id
    ensures exists j :: i < j < k && Closes(updates[j], updates[i].id)
    decreases |updates|
  {
    var front := updates[..|updates| - 1];
    if k < |front| {
      ClosedBetween(front, i, k);
      var j :| i < j < k && Closes(front[j], front[i].id);
      assert Closes(updates[j], updates[i].id);
    } else {
      OpenIffUnclosed(front, updates[i].id);
      assert !OpensForGood(front, updates[i].id, i);
      var j :| i < j < |front| && Closes(front[j], updates[i].id);
      assert Closes(updates[j], updates[i].id);
    }
  }

  /**
   For every sequence of records from any backend: the open tools are exactly those whose latest
   call has no later completed or failed update, and no tool is called twice without one in between.
   */
  lemma OpenToolsAreUnclosed(parser: Parser, rs: seq<Record>, id: string)
    ensures
      var out := RecordsOut(parser, {}, rs);
      && (id in out.open <==> exists i :: OpensForGood(out.updates, id, i))
      && forall i, k :: 0 <= i < k < |out.updates| && out.updates[i].ToolCall? && out.updates[k].ToolCall?
                        && out.updates[i].id == out.updates[k].id
                        ==> exists j :: i < j < k && Closes(out.updates[j], out.updates[i].id)
  {
    var out := RecordsOut(parser, {}, rs);
    RecordsAccount(parser, {}, rs);
    OpenIffUnclosed(out.updates, id);
    forall i, k | 0 <= i < k < |out.updates| && out.updates[i].ToolCall? && out.updates[k].ToolCall?
                  && out.updates[i].id == out.updates[k].id
      ensures exists j :: i < j < k && Closes(out.updates[j], out.updates[i].id)
    {
      ClosedBetween(out.updates, i, k);
    }
  }

  /** A turn as a whole: every call it shows is closed when it completes. */
  method ProjectTurn(parser: Parser, rs: seq<Record>) returns (updates: seq<Update>)
    ensures RecordsOut(parser, {}, rs).updates <= updates
    ensures NoReopening({}, updates) && OpenAfter({}, updates) == {}
    ensures forall id, i :: !OpensForGood(updates, id, i)
  {
    var projector := new Projector();
    updates := [];
    var i := 0;
    while i < |rs|
      invariant 0 <= i <= |rs|
      invariant Out(projector.openTools, updates) == RecordsOut(parser, {}, rs[..i])
    {
      assert rs[..i + 1][..i] == rs[..i];
      var more := projector.ToolUpdates(parser, rs[i]);
      updates := updates + more;
      i := i + 1;
    }
    assert rs[..i] == rs;
    RecordsAccount(parser, {}, rs);
    ghost var open := projector.openTools;
    var closing := projector.FinishOpenTools();
    ClosingCloses(open, closing);
    OpenAfterAppend({}, updates, closing);
    updates := updates + closing;
    forall id, i | OpensForGood(updates, id, i)
      ensures false
    {
      OpenIffUnclosed(updates, id);
    }
  }

  lemma {:induction false} ClosingCloses(open: set<string>, closing: seq<Update>)
    requires forall i :: 0 <= i < |closing| ==> closing[i].ToolUpdate? && closing[i].status == Completed
    ensures forall id :: id in OpenAfter(open, closing) ==> id in open && ToolUpdate(id, Completed) !in closing
    ensures NoReopening(open, closing)
    decreases |closing|
  {
    if closing != [] {
      var front, last := closing[..|closing| - 1], closing[|closing| - 1];
      ClosingCloses(open, front);
      assert closing == front + [last];
    }
  }
}
