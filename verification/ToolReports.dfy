/**
 What the client is told of tools and plans, read off the records: which tools begin and end,
 under which name and how, and which plans are shown, for all four shapes of records.
 */
module ToolReports {
  import opened Wrappers
  import opened Json
  import opened PartText
  import opened Projection

  // ---- how a tool ends ----

  /** An OpenCode part about this tool, in this state. */
  predicate IsPart(r: Record, id: string, status: string) {
    && r.eventType == "tool"
    && match Get(r.payload, "part")
       case None => false
       case Some(part) =>
         && id == OrElse(AsStr(GetEither(part, "callID", "callId")), ToolId(r, OrElse(AsStr(Get(part, "tool")), "tool")))
         && status == OrElse(AsStr(At(part, "state", "status")), "in_progress")
  }

  /** A Claude content block of the record. */
  predicate HasBlock(r: Record, block: Value) {
    match Get(r.payload, "message")
    case Some(message) =>
      (match Get(message, "content")
       case Some(Array(blocks)) => block in blocks
       case _ => false)
    case None => false
  }

  lemma BlocksAreContent(r: Record)
    ensures forall block :: block in Content(r) <==> HasBlock(r, block)
  {
  }

  /** A Claude block with the result of this tool. */
  predicate IsResult(block: Value, id: string) {
    AsStr(Get(block, "type")) == Some("tool_result") && AsStr(GetEither(block, "tool_use_id", "toolUseId")) == Some(id)
  }

  predicate TellsFailed(r: Record, id: string) {
    IsPart(r, id, "error") || IsPart(r, id, "failed")
  }

  /** A completed part, a result among the blocks, or a Codex result of a tool that is open. */
  ghost predicate TellsCompleted(parser: Parser, open: set<string>, r: Record, id: string) {
    || IsPart(r, id, "completed")
    || (!Ends(parser, r) && exists block :: HasBlock(r, block) && IsResult(block, id))
    || (r.eventType == "toolResult" && AsStr(Get(r.payload, "call_id")) == Some(id) && id in open)
  }

  lemma PlanTellsNothing(parser: Parser, r: Record, name: string, u: Update)
    requires u.ToolUpdate? || u.ToolCall?
    ensures u !in OrElse(PlanOf(parser, r, name), [])
  {
  }

  lemma CodexTells(parser: Parser, open: set<string>, r: Record, id: string)
    ensures ToolUpdate(id, Failed) !in CodexOut(parser, open, r).updates
    ensures ToolUpdate(id, Completed) in CodexOut(parser, open, r).updates <==>
              r.eventType == "toolResult" && AsStr(Get(r.payload, "call_id")) == Some(id) && id in open
  {
    var name := AsStr(Get(r.payload, "name"));
    if name.Some? {
      PlanTellsNothing(parser, r, name.value, ToolUpdate(id, Failed));
      PlanTellsNothing(parser, r, name.value, ToolUpdate(id, Completed));
    }
  }

  lemma PartTells(open: set<string>, r: Record, id: string)
    ensures ToolUpdate(id, Failed) in PartOut(open, r).updates <==> TellsFailed(r, id)
    ensures ToolUpdate(id, Completed) in PartOut(open, r).updates <==> IsPart(r, id, "completed")
  {
  }

  lemma BlockTells(open: set<string>, r: Record, block: Value, id: string)
    ensures ToolUpdate(id, Failed) !in BlockOut(open, r, block).updates
    ensures ToolUpdate(id, Completed) in BlockOut(open, r, block).updates <==> IsResult(block, id)
  {
  }

  lemma {:induction false} BlocksTell(open: set<string>, r: Record, blocks: seq<Value>, id: string)
    ensures ToolUpdate(id, Failed) !in BlocksOut(open, r, blocks).updates
    ensures ToolUpdate(id, Completed) in BlocksOut(open, r, blocks).updates <==>
              exists block :: block in blocks && IsResult(block, id)
    decreases |blocks|
  {
    if blocks != [] {
      var front, last := blocks[..|blocks| - 1], blocks[|blocks| - 1];
      BlocksTell(open, r, front, id);
      BlockTells(BlocksOut(open, r, front).open, r, last, id);
      assert last in blocks && forall block :: block in blocks <==> block in front || block == last;
    }
  }

  /** What one record tells of the end of a tool. */
  lemma RecordTells(parser: Parser, open: set<string>, r: Record, id: string)
    ensures ToolUpdate(id, Failed) in RecordOut(parser, open, r).updates <==> TellsFailed(r, id)
    ensures ToolUpdate(id, Completed) in RecordOut(parser, open, r).updates <==> TellsCompleted(parser, open, r, id)
  {
    var codex := CodexOut(parser, open, r);
    CodexTells(parser, open, r, id);
    BlocksAreContent(r);
    if !Ends(parser, r) {
      var part := PartOut(codex.open, r);
      PartTells(codex.open, r, id);
      BlocksTell(part.open, r, Content(r), id);
    }
  }

  predicate FailsAt(rs: seq<Record>, id: string, i: nat) {
    i < |rs| && TellsFailed(rs[i], id)
  }

  ghost predicate CompletesAt(parser: Parser, rs: seq<Record>, id: string, i: nat) {
    i < |rs| && TellsCompleted(parser, RecordsOut(parser, {}, rs[..i]).open, rs[i], id)
  }

  /** What each record tells. */
  function Told(parser: Parser, rs: seq<Record>): (told: seq<seq<Update>>)
    ensures |told| == |rs|
  {
    if rs == [] then []
    else
      var front := rs[..|rs| - 1];
      Told(parser, front) + [RecordOut(parser, RecordsOut(parser, {}, front).open, rs[|rs| - 1]).updates]
  }

  function Flat(told: seq<seq<Update>>): seq<Update> {
    if told == [] then [] else Flat(told[..|told| - 1]) + told[|told| - 1]
  }

  lemma {:induction false} InFlat(told: seq<seq<Update>>, u: Update)
    ensures u in Flat(told) <==> exists i :: 0 <= i < |told| && u in told[i]
    decreases |told|
  {
    if told != [] {
      InFlat(told[..|told| - 1], u);
    }
  }

  lemma {:induction false} ToldIsAll(parser: Parser, rs: seq<Record>)
    ensures Flat(Told(parser, rs)) == RecordsOut(parser, {}, rs).updates
    decreases |rs|
  {
    if rs != [] {
      var front := rs[..|rs| - 1];
      ToldIsAll(parser, front);
      assert Told(parser, rs)[..|front|] == Told(parser, front);
    }
  }

  lemma {:induction false} ToldAt(parser: Parser, rs: seq<Record>, i: nat)
    requires i < |rs|
    ensures Told(parser, rs)[i] == RecordOut(parser, RecordsOut(parser, {}, rs[..i]).open, rs[i]).updates
    decreases |rs|
  {
    var front := rs[..|rs| - 1];
    if i < |front| {
      ToldAt(parser, front, i);
      assert front[..i] == rs[..i] && front[i] == rs[i];
      assert Told(parser, rs)[i] == Told(parser, front)[i];
    } else {
      assert rs[..i] == front;
    }
  }

  lemma EndsAt(parser: Parser, rs: seq<Record>, id: string, i: nat)
    requires i < |rs|
    ensures ToolUpdate(id, Failed) in Told(parser, rs)[i] <==> FailsAt(rs, id, i)
    ensures ToolUpdate(id, Completed) in Told(parser, rs)[i] <==> CompletesAt(parser, rs, id, i)
  {
    ToldAt(parser, rs, i);
    RecordTells(parser, RecordsOut(parser, {}, rs[..i]).open, rs[i], id);
  }

  /**
   For every sequence of records, a tool is said to have failed exactly when some part reports it as "error" or
   "failed", and to be completed exactly when a part, a result block or a result of the open call says so.
   */
  lemma EndsAsReported(parser: Parser, rs: seq<Record>, id: string)
    ensures
      var updates := RecordsOut(parser, {}, rs).updates;
      && (ToolUpdate(id, Failed) in updates <==> exists i :: FailsAt(rs, id, i))
      && (ToolUpdate(id, Completed) in updates <==> exists i :: CompletesAt(parser, rs, id, i))
  {
    var told := Told(parser, rs);
    ToldIsAll(parser, rs);
    InFlat(told, ToolUpdate(id, Failed));
    InFlat(told, ToolUpdate(id, Completed));
    forall i | 0 <= i < |rs|
      ensures ToolUpdate(id, Failed) in told[i] <==> FailsAt(rs, id, i)
      ensures ToolUpdate(id, Completed) in told[i] <==> CompletesAt(parser, rs, id, i)
    {
      EndsAt(parser, rs, id, i);
    }
  }

  // ---- what a call is named ----

  predicate IsPlanCall(call: (string, Value)) {
    call.0 == "update_plan"
  }

  lemma {:induction false} FirstCalledIs(calls: seq<(string, Value)>, plans: bool)
    ensures FirstCalled(calls, plans).None? <==> forall i :: 0 <= i < |calls| ==> IsPlanCall(calls[i]) != plans
    ensures forall k :: 0 <= k < |calls| && IsPlanCall(calls[k]) == plans
                        && (forall i :: 0 <= i < k ==> IsPlanCall(calls[i]) != plans) ==>
              FirstCalled(calls, plans) == Some(calls[k])
    decreases |calls|
  {
    if calls != [] {
      FirstCalledIs(calls[1..], plans);
      assert forall i :: 0 < i < |calls| ==> calls[i] == calls[1..][i - 1];
    }
  }

  /** The calls in the script of an "exec" call. */
  predicate Scripts(parser: Parser, r: Record, name: string, calls: seq<(string, Value)>) {
    match AsStr(Get(r.payload, "arguments"))
    case Some(script) => calls == if name == "exec" then parser.embedded(script) else []
    case None => calls == []
  }

  /** A script is named after the first tool it calls other than the plan, every other call after itself. */
  predicate IsTitle(name: string, calls: seq<(string, Value)>, title: string) {
    if name != "exec" then title == name
    else if forall i :: 0 <= i < |calls| ==> IsPlanCall(calls[i]) then title == "exec_command"
    else exists k :: 0 <= k < |calls| && title == calls[k].0 && !IsPlanCall(calls[k])
                     && forall i :: 0 <= i < k ==> IsPlanCall(calls[i])
  }

  lemma {:induction false} FirstOther(calls: seq<(string, Value)>) returns (k: nat)
    requires exists i :: 0 <= i < |calls| && !IsPlanCall(calls[i])
    ensures k < |calls| && !IsPlanCall(calls[k]) && forall i :: 0 <= i < k ==> IsPlanCall(calls[i])
    decreases |calls|
  {
    if !IsPlanCall(calls[0]) {
      k := 0;
    } else {
      assert forall i :: 0 < i < |calls| ==> calls[i] == calls[1..][i - 1];
      k := FirstOther(calls[1..]);
      k := k + 1;
    }
  }

  lemma TitleIs(name: string, calls: seq<(string, Value)>, title: string)
    ensures title == Title(name, calls) <==> IsTitle(name, calls, title)
  {
    FirstCalledIs(calls, false);
    if name == "exec" && exists i :: 0 <= i < |calls| && !IsPlanCall(calls[i]) {
      var k := FirstOther(calls);
      assert FirstCalled(calls, false) == Some(calls[k]);
      forall j | 0 <= j < |calls| && !IsPlanCall(calls[j]) && forall i :: 0 <= i < j ==> IsPlanCall(calls[i])
        ensures j == k
      {
      }
    }
  }

  /** The id a record gives; without one, records of one pane are told apart by cursor and name. */
  lemma ToolIdIs(r: Record, name: string)
    ensures Get(r.payload, "call_id").Some? ==>
              forall id :: AsStr(Get(r.payload, "call_id")) == Some(id) ==> ToolId(r, name) == id
    ensures Get(r.payload, "call_id").None? ==>
              forall id :: AsStr(Get(r.payload, "id")) == Some(id) ==> ToolId(r, name) == id
  {
  }

  predicate Unnamed(r: Record) {
    AsStr(if Get(r.payload, "call_id").Some? then Get(r.payload, "call_id") else Get(r.payload, "id")).None?
  }

  lemma DecimalsDiffer(m: nat, n: nat, a: string, b: string)
    requires Decimal(m) + "-" + a == Decimal(n) + "-" + b
    ensures m == n && a == b
  {
    var left, right := Decimal(m), Decimal(n);
    var text := left + "-" + a;
    assert text[|left|] == '-' && text[|right|] == '-';
    assert forall i :: 0 <= i < |left| ==> IsDigit(text[i]);
    assert forall i :: 0 <= i < |right| ==> IsDigit((right + "-" + b)[i]);
    assert |left| == |right|;
    assert left == text[..|left|] == right;
    assert a == text[|left| + 1..] == b;
    DecimalParses(m);
    DecimalParses(n);
  }

  lemma UnnamedIdsDiffer(r: Record, s: Record, name: string, other: string)
    requires Unnamed(r) && Unnamed(s) && r.paneId == s.paneId && r.cursor.Some? && s.cursor.Some?
    requires ToolId(r, name) == ToolId(s, other)
    ensures r.cursor == s.cursor && name == other
  {
    var prefix := "slopd-" + OrElse(r.paneId, "pane") + "-";
    assert ToolId(r, name) == prefix + (Decimal(r.cursor.value) + "-" + name);
    assert ToolId(s, other) == prefix + (Decimal(s.cursor.value) + "-" + other);
    assert ToolId(r, name)[|prefix|..] == Decimal(r.cursor.value) + "-" + name;
    assert ToolId(s, other)[|prefix|..] == Decimal(s.cursor.value) + "-" + other;
    DecimalsDiffer(r.cursor.value, s.cursor.value, name, other);
  }

  // ---- which plans are shown ----

  /** Where a call's plan is looked for: in its own arguments, or in the first plan its script calls for. */
  predicate HoldsPlan(parser: Parser, r: Record, name: string, calls: seq<(string, Value)>, input: Value) {
    if name == "update_plan" || r.eventType == "plan" then
      match Get(r.payload, "arguments")
      case None => input == Null
      case Some(String(text)) =>
        (match parser.relaxed(text)
         case Some(parsed) => input == parsed
         case None => input == Object(map["input" := String(text)]))
      case Some(arguments) => input == arguments
    else
      exists k :: 0 <= k < |calls| && IsPlanCall(calls[k]) && calls[k].1 == input
                  && forall i :: 0 <= i < k ==> !IsPlanCall(calls[i])
  }

  function EntryText(item: Value): Option<string> {
    AsStr(if Get(item, "step").Some? then Get(item, "step") else Get(item, "content"))
  }

  /** A plan entry as the client knows it: a text, one of three states and one of three priorities. */
  predicate IsEntry(item: Value, entry: PlanEntry) {
    var status, priority := AsStr(Get(item, "status")), AsStr(Get(item, "priority"));
    && EntryText(item) == Some(entry.content)
    && entry.status in {"pending", "in_progress", "completed"} && entry.priority in {"low", "medium", "high"}
    && (entry.status == "completed" <==> status == Some("completed"))
    && (entry.status == "in_progress" <==> status == Some("in_progress") || status == Some("running"))
    && (entry.priority == "low" <==> priority == Some("low"))
    && (entry.priority == "high" <==> priority == Some("high"))
  }

  lemma EntryIs(item: Value, entry: PlanEntry)
    ensures PlanEntryOf(item) == Some(entry) <==> IsEntry(item, entry)
  {
  }

  /** The entries are those of the items that have a text, in order. */
  predicate AreEntries(items: seq<Value>, entries: seq<PlanEntry>)
    decreases |items|
  {
    if items == [] then entries == []
    else if EntryText(items[0]).None? then AreEntries(items[1..], entries)
    else entries != [] && IsEntry(items[0], entries[0]) && AreEntries(items[1..], entries[1..])
  }

  lemma {:induction false} EntriesAre(items: seq<Value>, entries: seq<PlanEntry>)
    ensures entries == PlanEntries(items) <==> AreEntries(items, entries)
    decreases |items|
  {
    if items != [] {
      var all, rest := PlanEntries(items), PlanEntries(items[1..]);
      if EntryText(items[0]).None? {
        EntriesAre(items[1..], entries);
        assert all == rest;
      } else {
        var first := PlanEntryOf(items[0]).value;
        EntryIs(items[0], first);
        assert all == [first] + rest && all[0] == first && all[1..] == rest;
        if entries != [] {
          EntryIs(items[0], entries[0]);
          EntriesAre(items[1..], entries[1..]);
          assert entries == [entries[0]] + entries[1..];
        }
      }
    }
  }

  /** An input with a plan that is not empty, and what is shown of it: its explanation, if any, and its entries. */
  predicate ShowsPlan(input: Value, updates: seq<Update>) {
    match Get(input, "plan")
    case Some(Array(items)) =>
      && updates != [] && updates[|updates| - 1].Plan?
      && AreEntries(items, updates[|updates| - 1].entries) && updates[|updates| - 1].entries != []
      && (match AsStr(Get(input, "explanation"))
          case Some(text) => updates[..|updates| - 1] == if text == "" then [] else [Thought(text)]
          case None => |updates| == 1)
    case _ => false
  }

  lemma PlanIsShown(input: Value)
    requires PlanUpdates(input).Some?
    ensures ShowsPlan(input, PlanUpdates(input).value)
  {
    var items := Get(input, "plan").value.items;
    var updates := PlanUpdates(input).value;
    EntriesAre(items, PlanEntries(items));
    assert updates[|updates| - 1] == Plan(PlanEntries(items));
    if |updates| == 2 {
      assert updates[..1] == [updates[0]];
    } else {
      assert updates[..0] == [];
    }
  }

  lemma ShownIsPlan(input: Value, updates: seq<Update>)
    requires ShowsPlan(input, updates)
    ensures PlanUpdates(input) == Some(updates)
  {
    var items := Get(input, "plan").value.items;
    var last := updates[|updates| - 1];
    EntriesAre(items, last.entries);
    assert updates == updates[..|updates| - 1] + [last];
    assert |updates| == 1 ==> updates[..|updates| - 1] == [];
  }

  lemma PlanShown(input: Value, updates: seq<Update>)
    ensures PlanUpdates(input) == Some(updates) <==> ShowsPlan(input, updates)
  {
    if PlanUpdates(input) == Some(updates) {
      PlanIsShown(input);
    }
    if ShowsPlan(input, updates) {
      ShownIsPlan(input, updates);
    }
  }

  lemma HeldPlan(parser: Parser, r: Record, name: string, calls: seq<(string, Value)>)
    requires Scripts(parser, r, name, calls)
    ensures calls == EmbeddedCalls(parser, r, name)
    ensures forall input :: HoldsPlan(parser, r, name, calls, input) ==> PlanOf(parser, r, name) == PlanUpdates(input)
    ensures PlanOf(parser, r, name).Some? ==> exists input :: HoldsPlan(parser, r, name, calls, input)
  {
    FirstCalledIs(calls, true);
    if name == "update_plan" || r.eventType == "plan" {
      assert HoldsPlan(parser, r, name, calls, DecodedInput(parser, Get(r.payload, "arguments")));
    } else if exists i :: 0 <= i < |calls| && IsPlanCall(calls[i]) {
      var k := FirstPlan(calls);
      assert HoldsPlan(parser, r, name, calls, calls[k].1);
    }
  }

  lemma {:induction false} FirstPlan(calls: seq<(string, Value)>) returns (k: nat)
    requires exists i :: 0 <= i < |calls| && IsPlanCall(calls[i])
    ensures k < |calls| && IsPlanCall(calls[k]) && forall i :: 0 <= i < k ==> !IsPlanCall(calls[i])
    decreases |calls|
  {
    if IsPlanCall(calls[0]) {
      k := 0;
    } else {
      assert forall i :: 0 < i < |calls| ==> calls[i] == calls[1..][i - 1];
      k := FirstPlan(calls[1..]);
      k := k + 1;
    }
  }

  /** A call of this name, with these calls in its script, shows these updates for a plan. */
  ghost predicate PlansBy(parser: Parser, r: Record, name: string, calls: seq<(string, Value)>, updates: seq<Update>) {
    exists input :: HoldsPlan(parser, r, name, calls, input) && ShowsPlan(input, updates)
  }

  lemma PlanOfIff(parser: Parser, r: Record, name: string, calls: seq<(string, Value)>, updates: seq<Update>)
    requires Scripts(parser, r, name, calls)
    ensures PlanOf(parser, r, name) == Some(updates) <==> PlansBy(parser, r, name, calls, updates)
  {
    HeldPlan(parser, r, name, calls);
    if PlanOf(parser, r, name).Some? {
      var input :| HoldsPlan(parser, r, name, calls, input);
      PlanShown(input, updates);
    }
    forall input | HoldsPlan(parser, r, name, calls, input)
      ensures PlanOf(parser, r, name) == Some(updates) <==> ShowsPlan(input, updates)
    {
      PlanShown(input, updates);
    }
  }

  // ---- how a tool begins ----

  /** A Codex call. */
  predicate Calls(r: Record, name: string) {
    && (r.eventType == "commandExecution" || r.eventType == "fileChange" || r.eventType == "plan"
        || r.eventType == "webSearch" || r.eventType == "mcpToolCall" || r.eventType == "toolCall")
    && AsStr(Get(r.payload, "name")) == Some(name)
  }

  /** A plan takes the place of the call that shows it, unless that is a script that calls other tools too. */
  ghost predicate OnlyPlans(parser: Parser, r: Record) {
    exists name, calls, updates ::
      && Calls(r, name) && Scripts(parser, r, name, calls) && PlansBy(parser, r, name, calls, updates)
      && (name == "exec" ==> forall i :: 0 <= i < |calls| ==> IsPlanCall(calls[i]))
  }

  lemma EndsIff(parser: Parser, r: Record)
    ensures Ends(parser, r) <==> OnlyPlans(parser, r)
  {
    var name := AsStr(Get(r.payload, "name"));
    if name.Some? && Calls(r, name.value) {
      var calls := EmbeddedCalls(parser, r, name.value);
      assert Scripts(parser, r, name.value, calls);
      FirstCalledIs(calls, false);
      forall updates
        ensures PlanOf(parser, r, name.value) == Some(updates) <==> PlansBy(parser, r, name.value, calls, updates)
      {
        PlanOfIff(parser, r, name.value, calls, updates);
      }
    }
  }

  /** A record that begins a tool: a call, a part that waits or runs, or a block. */
  ghost predicate TellsBegun(parser: Parser, r: Record, id: string, title: string, status: Status) {
    || CallBegins(parser, r, id, title, status)
    || PartBegins(r, id, title, status)
    || (!OnlyPlans(parser, r) && status == InProgress && exists block :: HasBlock(r, block) && BlockBegins(r, block, id, title))
  }

  ghost predicate CallBegins(parser: Parser, r: Record, id: string, title: string, status: Status) {
    && status == InProgress && !OnlyPlans(parser, r)
    && exists name, calls :: Calls(r, name) && Scripts(parser, r, name, calls) && id == ToolId(r, name) && IsTitle(name, calls, title)
  }

  predicate PartBegins(r: Record, id: string, title: string, status: Status) {
    && ((status == Pending && IsPart(r, id, "pending")) || (status == InProgress && IsPart(r, id, "running")))
    && match Get(r.payload, "part")
       case Some(part) => IsTitle(OrElse(AsStr(Get(part, "tool")), "tool"), [], title)
       case None => false
  }

  predicate BlockBegins(r: Record, block: Value, id: string, title: string) {
    var name := OrElse(AsStr(Get(block, "name")), "tool");
    && AsStr(Get(block, "type")) == Some("tool_use") && IsTitle(name, [], title)
    && id == OrElse(AsStr(Get(block, "id")), ToolId(r, name))
  }

  /** An update begins this tool so. */
  predicate Begins(updates: seq<Update>, id: string, title: string, status: Status) {
    ToolCall(id, title, status) in updates
  }

  lemma CodexBegins(parser: Parser, open: set<string>, r: Record, id: string, title: string, status: Status)
    ensures Begins(CodexOut(parser, open, r).updates, id, title, status) <==>
              CallBegins(parser, r, id, title, status) && id !in open
  {
    EndsIff(parser, r);
    var name := AsStr(Get(r.payload, "name"));
    if name.Some? && Calls(r, name.value) {
      var calls := EmbeddedCalls(parser, r, name.value);
      assert Scripts(parser, r, name.value, calls);
      TitleIs(name.value, calls, title);
      PlanTellsNothing(parser, r, name.value, ToolCall(id, title, status));
    }
  }

  lemma PartBeginsIff(open: set<string>, r: Record, id: string, title: string, status: Status)
    ensures Begins(PartOut(open, r).updates, id, title, status) <==> PartBegins(r, id, title, status) && id !in open
    ensures ToolUpdate(id, InProgress) in PartOut(open, r).updates <==> IsPart(r, id, "running") && id in open
  {
    var part := Get(r.payload, "part");
    if part.Some? {
      TitleIs(OrElse(AsStr(Get(part.value, "tool")), "tool"), [], title);
    }
  }

  lemma BlockBeginsIff(open: set<string>, r: Record, block: Value, id: string, title: string, status: Status)
    ensures Begins(BlockOut(open, r, block).updates, id, title, status) <==>
              BlockBegins(r, block, id, title) && status == InProgress && id !in open
  {
    TitleIs(OrElse(AsStr(Get(block, "name")), "tool"), [], title);
  }

  lemma {:induction false} BlocksBegin(open: set<string>, r: Record, blocks: seq<Value>, id: string, title: string, status: Status)
    ensures Begins(BlocksOut(open, r, blocks).updates, id, title, status) ==>
              status == InProgress && exists block :: block in blocks && BlockBegins(r, block, id, title)
    decreases |blocks|
  {
    if blocks != [] {
      var front, last := blocks[..|blocks| - 1], blocks[|blocks| - 1];
      BlocksBegin(open, r, front, id, title, status);
      BlockBeginsIff(BlocksOut(open, r, front).open, r, last, id, title, status);
      assert last in blocks && forall block :: block in front ==> block in blocks;
    }
  }

  /** A tool is announced only by a record that begins it, under that name and status. */
  lemma BegunAsReported(parser: Parser, open: set<string>, r: Record, id: string, title: string, status: Status)
    ensures Begins(RecordOut(parser, open, r).updates, id, title, status) ==> TellsBegun(parser, r, id, title, status)
    ensures (CallBegins(parser, r, id, title, status) || PartBegins(r, id, title, status)) && id !in open ==>
              Begins(RecordOut(parser, open, r).updates, id, title, status)
  {
    var codex := CodexOut(parser, open, r);
    EndsIff(parser, r);
    CodexBegins(parser, open, r, id, title, status);
    BlocksAreContent(r);
    if !Ends(parser, r) {
      PartBeginsIff(codex.open, r, id, title, status);
      BlocksBegin(PartOut(codex.open, r).open, r, Content(r), id, title, status);
    }
  }

  predicate ShowsNoPlan(updates: seq<Update>) {
    forall u :: u in updates ==> !u.Plan? && !u.Thought?
  }

  /** A call shows its plan before anything else. */
  lemma PlanIsFirst(parser: Parser, open: set<string>, r: Record, name: string, calls: seq<(string, Value)>, shown: seq<Update>)
    requires Calls(r, name) && Scripts(parser, r, name, calls) && PlansBy(parser, r, name, calls, shown)
    ensures shown <= CodexOut(parser, open, r).updates <= RecordOut(parser, open, r).updates
  {
    PlanOfIff(parser, r, name, calls, shown);
    CodexIsFirst(parser, open, r);
  }

  lemma CodexIsFirst(parser: Parser, open: set<string>, r: Record)
    ensures CodexOut(parser, open, r).updates <= RecordOut(parser, open, r).updates
  {
  }

  lemma CodexShowsNoPlan(parser: Parser, open: set<string>, r: Record)
    requires forall name :: Calls(r, name) ==> PlanOf(parser, r, name).None?
    ensures ShowsNoPlan(CodexOut(parser, open, r).updates)
  {
    var name := AsStr(Get(r.payload, "name"));
    assert name.Some? && IsCall(r) ==> Calls(r, name.value);
  }

  lemma {:induction false} BlocksShowNoPlan(open: set<string>, r: Record, blocks: seq<Value>)
    ensures ShowsNoPlan(BlocksOut(open, r, blocks).updates)
    decreases |blocks|
  {
    if blocks != [] {
      BlocksShowNoPlan(open, r, blocks[..|blocks| - 1]);
    }
  }

  lemma PartShowsNoPlan(open: set<string>, r: Record)
    ensures ShowsNoPlan(PartOut(open, r).updates)
  {
  }

  /** Any other record shows no plan. */
  lemma NoOtherPlan(parser: Parser, open: set<string>, r: Record)
    requires forall name, calls, shown ::
               Calls(r, name) && Scripts(parser, r, name, calls) ==> !PlansBy(parser, r, name, calls, shown)
    ensures ShowsNoPlan(RecordOut(parser, open, r).updates)
  {
    forall name | Calls(r, name)
      ensures PlanOf(parser, r, name).None?
    {
      var calls := EmbeddedCalls(parser, r, name);
      assert Scripts(parser, r, name, calls);
      if PlanOf(parser, r, name).Some? {
        PlanOfIff(parser, r, name, calls, PlanOf(parser, r, name).value);
      }
    }
    var codex := CodexOut(parser, open, r);
    CodexShowsNoPlan(parser, open, r);
    PartShowsNoPlan(codex.open, r);
    BlocksShowNoPlan(PartOut(codex.open, r).open, r, Content(r));
  }
}
