/**
 The scan of a transcript for the reply to a request: from the user's prompt up to the end of
 its turn, with failures that a retry, a completion or a final answer clears.
 */
module ReplyScan {
  import opened Wrappers
  import opened Json
  import opened Text

  datatype Record = Record(eventType: string, payload: Value, cursor: Option<nat>)

  datatype Role = User | Assistant

  datatype Snapshot = Snapshot(reply: Option<string>, complete: bool, failure: Option<Value>)

  const NOTHING := Snapshot(None, false, None)

  /** How a payload's text is found is a parameter. */
  type TextOf = Value -> Option<string>

  function RoleOf(r: Record): Option<Role> {
    var role := AsStr(Get(r.payload, "role"));
    if r.eventType in {"user", "userMessage", "user_message_chunk"} then Some(User)
    else if r.eventType in {"assistant", "agentMessage", "agent_message_chunk"} then Some(Assistant)
    else if role == Some("user") then Some(User)
    else if role == Some("assistant") then Some(Assistant)
    else None
  }

  function Phase(r: Record): string {
    OrElse(AsStr(Get(r.payload, "phase")), "")
  }

  predicate IsFailed(r: Record) {
    r.eventType == "turn_failed"
  }

  predicate IsCompleted(r: Record) {
    r.eventType == "turn_completed"
  }

  predicate Continues(textOf: TextOf, r: Record) {
    !IsFailed(r) && !IsCompleted(r) && RoleOf(r) == Some(User)
    && textOf(r.payload).Some? && AsciiLower(Trim(textOf(r.payload).value)) == "continue"
  }

  /** Something the assistant says that is not a progress note. */
  predicate Answers(textOf: TextOf, r: Record) {
    !IsFailed(r) && !IsCompleted(r) && RoleOf(r) == Some(Assistant) && Phase(r) != "commentary" && textOf(r.payload).Some?
  }

  predicate IsFinal(textOf: TextOf, r: Record) {
    Answers(textOf, r) && Phase(r) == "final_answer"
  }

  // ---- one record ----

  datatype Scan = Scan(reply: Option<string>, chunks: string, complete: bool, failure: Option<Value>, stopped: bool)

  const START := Scan(None, "", false, None, false)

  function Step(textOf: TextOf, s: Scan, r: Record): Scan {
    if s.stopped then s
    else if IsFailed(r) then s.(failure := Some(r.payload), complete := false)
    else if IsCompleted(r) then s.(failure := None, complete := true, stopped := true)
    else if RoleOf(r) == Some(User) && s.failure.Some? && Continues(textOf, r) then s.(failure := None, complete := false)
    else if RoleOf(r) == Some(User) && (s.reply.Some? || s.failure.Some?) then s.(stopped := true)
    else if !Answers(textOf, r) then s
    else
      var text := textOf(r.payload).value;
      var t := if r.eventType == "agent_message_chunk"
               then s.(chunks := s.chunks + text, reply := Some(s.chunks + text)) else s.(reply := Some(text));
      if Phase(r) == "final_answer" then t.(failure := None, complete := true, stopped := true) else t
  }

  function ScanOf(textOf: TextOf, records: seq<Record>): Scan {
    if records == [] then START else Step(textOf, ScanOf(textOf, records[..|records| - 1]), records[|records| - 1])
  }

  // ---- the scan ----

  method ReplySnapshotFrom(textOf: TextOf, records: seq<Record>, userIndex: nat) returns (snapshot: Snapshot)
    requires userIndex < |records|
    ensures
      var s := ScanOf(textOf, records[userIndex + 1..]);
      snapshot == Snapshot(s.reply, s.complete, s.failure)
  {
    var reply: Option<string> := None;
    var chunks := "";
    var complete := false;
    var failure: Option<Value> := None;
    var rest := records[userIndex + 1..];
    var i := 0;
    while i < |rest|
      invariant 0 <= i <= |rest|
      invariant ScanOf(textOf, rest[..i]) == Scan(reply, chunks, complete, failure, false)
    {
      var record := rest[i];
      assert rest[..i + 1][..i] == rest[..i];
      i := i + 1;
      if record.eventType == "turn_failed" {
        failure := Some(record.payload);
        complete := false;
        continue;
      }
      if record.eventType == "turn_completed" {
        StoppedStays(textOf, rest[..i], rest);
        return Snapshot(reply, true, None);
      }
      if RoleOf(record) == Some(User) {
        if failure.Some? && Continues(textOf, record) {
          failure := None;
          complete := false;
          continue;
        }
        if reply.Some? || failure.Some? {
          StoppedStays(textOf, rest[..i], rest);
          return Snapshot(reply, complete, failure);
        }
      }
      if RoleOf(record) != Some(Assistant) || Phase(record) == "commentary" {
        continue;
      }
      var text := textOf(record.payload);
      if text.None? {
        continue;
      }
      if record.eventType == "agent_message_chunk" {
        chunks := chunks + text.value;
        reply := Some(chunks);
      } else {
        reply := Some(text.value);
      }
      if Phase(record) == "final_answer" {
        StoppedStays(textOf, rest[..i], rest);
        return Snapshot(reply, true, None);
      }
    }
    assert rest[..i] == rest;
    return Snapshot(reply, complete, failure);
  }

  predicate Matches(textOf: TextOf, r: Record, afterCursor: nat, prompt: string) {
    && r.cursor.Some? && r.cursor.value > afterCursor
    && RoleOf(r) == Some(User)
    && textOf(r.payload).Some? && Trim(textOf(r.payload).value) == Trim(prompt)
  }

  function FirstMatch(textOf: TextOf, records: seq<Record>, afterCursor: nat, prompt: string): (k: Option<nat>)
    ensures k.Some? ==> k.value < |records| && Matches(textOf, records[k.value], afterCursor, prompt)
    ensures k.Some? ==> forall j :: 0 <= j < k.value ==> !Matches(textOf, records[j], afterCursor, prompt)
    ensures k.None? ==> forall j :: 0 <= j < |records| ==> !Matches(textOf, records[j], afterCursor, prompt)
  {
    FirstWhere(records, r => Matches(textOf, r, afterCursor, prompt))
  }

  function SnapshotOf(textOf: TextOf, records: seq<Record>, afterCursor: nat, prompt: string): Snapshot {
    match FirstMatch(textOf, records, afterCursor, prompt)
    case None => NOTHING
    case Some(k) =>
      var s := ScanOf(textOf, records[k + 1..]);
      Snapshot(s.reply, s.complete, s.failure)
  }

  method RequestReplySnapshot(textOf: TextOf, records: seq<Record>, afterCursor: nat, prompt: string) returns (snapshot: Snapshot)
    ensures snapshot == SnapshotOf(textOf, records, afterCursor, prompt)
  {
    var matching := FirstMatch(textOf, records, afterCursor, prompt);
    if matching.None? {
      return NOTHING;
    }
    snapshot := ReplySnapshotFrom(textOf, records, matching.value);
  }

  // ---- stability ----

  lemma {:induction false} StoppedStays(textOf: TextOf, records: seq<Record>, longer: seq<Record>)
    requires records <= longer && ScanOf(textOf, records).stopped
    ensures ScanOf(textOf, longer) == ScanOf(textOf, records)
    decreases |longer|
  {
    if |longer| > |records| {
      StoppedStays(textOf, records, longer[..|longer| - 1]);
    } else {
      assert longer == records;
    }
  }

  lemma {:induction false} CompleteIsStopped(textOf: TextOf, records: seq<Record>)
    ensures ScanOf(textOf, records).complete ==> ScanOf(textOf, records).stopped && ScanOf(textOf, records).failure.None?
  {
    if records != [] {
      CompleteIsStopped(textOf, records[..|records| - 1]);
    }
  }

  lemma FirstMatchStays(textOf: TextOf, records: seq<Record>, more: seq<Record>, afterCursor: nat, prompt: string)
    requires FirstMatch(textOf, records, afterCursor, prompt).Some?
    ensures FirstMatch(textOf, records + more, afterCursor, prompt) == FirstMatch(textOf, records, afterCursor, prompt)
  {
    var k := FirstMatch(textOf, records, afterCursor, prompt).value;
    var longer := records + more;
    assert longer[k] == records[k];
    assert forall j :: 0 <= j < k ==> longer[j] == records[j];
    var found := FirstMatch(textOf, longer, afterCursor, prompt);
    assert found.Some? && found.value == k;
  }

  /** Once a reply is explicitly complete it reports no failure, and every extension of the transcript gives the same snapshot. */
  lemma CompleteReplyIsStable(textOf: TextOf, records: seq<Record>, more: seq<Record>, afterCursor: nat, prompt: string)
    requires SnapshotOf(textOf, records, afterCursor, prompt).complete
    ensures SnapshotOf(textOf, records + more, afterCursor, prompt) == SnapshotOf(textOf, records, afterCursor, prompt)
    ensures SnapshotOf(textOf, records, afterCursor, prompt).failure.None?
  {
    var k := FirstMatch(textOf, records, afterCursor, prompt).value;
    FirstMatchStays(textOf, records, more, afterCursor, prompt);
    CompleteIsStopped(textOf, records[k + 1..]);
    assert (records + more)[k + 1..] == records[k + 1..] + more;
    StoppedStays(textOf, records[k + 1..], records[k + 1..] + more);
  }

  // ---- how far the scan goes ----

  /** The scan has not stopped before this record. */
  predicate Scanned(textOf: TextOf, records: seq<Record>, j: nat)
    requires j <= |records|
  {
    !ScanOf(textOf, records[..j]).stopped
  }

  /** Before this record the assistant has said something. */
  predicate IsAnswered(textOf: TextOf, records: seq<Record>, j: nat)
    requires j <= |records|
  {
    exists i :: 0 <= i < j && Answers(textOf, records[i])
  }

  predicate FailsUncontinued(textOf: TextOf, records: seq<Record>, i: nat, j: nat)
    requires i < j <= |records|
  {
    IsFailed(records[i]) && forall m :: i < m < j ==> !Continues(textOf, records[m])
  }

  /** Before this record a failure was reported that the user has not answered with "continue". */
  predicate IsFailing(textOf: TextOf, records: seq<Record>, j: nat)
    requires j <= |records|
  {
    exists i :: 0 <= i < j && FailsUncontinued(textOf, records, i, j)
  }

  /** The user says something else, once there is an answer or a failure. */
  predicate NextPrompt(textOf: TextOf, records: seq<Record>, j: nat)
    requires j < |records|
  {
    && records[j].eventType != "turn_failed" && records[j].eventType != "turn_completed"
    && RoleOf(records[j]) == Some(User)
    && if IsFailing(textOf, records, j) then !Continues(textOf, records[j]) else IsAnswered(textOf, records, j)
  }

  /** The turn ends: it is completed, answered for good, or another prompt follows. */
  predicate TurnEnds(textOf: TextOf, records: seq<Record>, j: nat)
    requires j < |records|
  {
    IsCompleted(records[j]) || IsFinal(textOf, records[j]) || NextPrompt(textOf, records, j)
  }

  predicate NoEndBefore(textOf: TextOf, records: seq<Record>, j: nat)
    requires j <= |records|
  {
    forall i :: 0 <= i < j ==> !TurnEnds(textOf, records, i)
  }

  lemma StepFields(textOf: TextOf, s: Scan, r: Record)
    requires !s.stopped
    ensures Step(textOf, s, r).stopped <==>
              || IsCompleted(r) || IsFinal(textOf, r)
              || (!IsFailed(r) && RoleOf(r) == Some(User)
                  && if s.failure.Some? then !Continues(textOf, r) else s.reply.Some?)
    ensures !Step(textOf, s, r).stopped ==>
              && (Step(textOf, s, r).reply.Some? <==> s.reply.Some? || Answers(textOf, r))
              && (Step(textOf, s, r).failure.Some? <==> IsFailed(r) || (s.failure.Some? && !Continues(textOf, r)))
  {
  }

  lemma NextMarks(textOf: TextOf, records: seq<Record>, j: nat)
    requires j < |records|
    ensures IsAnswered(textOf, records, j + 1) <==> IsAnswered(textOf, records, j) || Answers(textOf, records[j])
    ensures IsFailing(textOf, records, j + 1) <==>
              IsFailed(records[j]) || (IsFailing(textOf, records, j) && !Continues(textOf, records[j]))
  {
    if IsFailed(records[j]) {
      assert FailsUncontinued(textOf, records, j, j + 1);
    }
    if i :| 0 <= i < j && FailsUncontinued(textOf, records, i, j) {
      assert !Continues(textOf, records[j]) ==> FailsUncontinued(textOf, records, i, j + 1);
    }
    var next := j + 1;
    if i :| 0 <= i < next && FailsUncontinued(textOf, records, i, next) {
      assert i < j ==> FailsUncontinued(textOf, records, i, j);
    }
  }

  /** The scan up to this record knows whether there is an answer, and whether there is a failure. */
  predicate Marks(textOf: TextOf, records: seq<Record>, j: nat)
    requires j <= |records|
  {
    && (ScanOf(textOf, records[..j]).reply.Some? <==> IsAnswered(textOf, records, j))
    && (ScanOf(textOf, records[..j]).failure.Some? <==> IsFailing(textOf, records, j))
  }

  lemma MarksNext(textOf: TextOf, records: seq<Record>, i: nat)
    requires i < |records| && Scanned(textOf, records, i) && Marks(textOf, records, i)
    ensures Scanned(textOf, records, i + 1) <==> !TurnEnds(textOf, records, i)
    ensures Scanned(textOf, records, i + 1) ==> Marks(textOf, records, i + 1)
  {
    var s, r := ScanOf(textOf, records[..i]), records[i];
    assert records[..i + 1][..i] == records[..i];
    assert ScanOf(textOf, records[..i + 1]) == Step(textOf, s, r);
    StepFields(textOf, s, r);
    NextMarks(textOf, records, i);
  }

  lemma {:induction false} ScannedMarks(textOf: TextOf, records: seq<Record>, j: nat)
    requires j <= |records|
    ensures Scanned(textOf, records, j) <==> NoEndBefore(textOf, records, j)
    ensures Scanned(textOf, records, j) ==> Marks(textOf, records, j)
    decreases j
  {
    if j == 0 {
      assert records[..0] == [];
    } else {
      var i := j - 1;
      ScannedMarks(textOf, records, i);
      if Scanned(textOf, records, i) {
        MarksNext(textOf, records, i);
      } else {
        assert records[..j][..i] == records[..i];
      }
    }
  }

  /** The scan goes on exactly as long as no record before has ended the turn. */
  lemma ScannedIff(textOf: TextOf, records: seq<Record>, j: nat)
    requires j <= |records|
    ensures Scanned(textOf, records, j) <==> NoEndBefore(textOf, records, j)
  {
    ScannedMarks(textOf, records, j);
  }

  lemma StopsAtPrompt(textOf: TextOf, before: seq<Record>, u: Record)
    requires NextPrompt(textOf, before + [u], |before|)
    ensures
      var s, t := ScanOf(textOf, before), ScanOf(textOf, before + [u]);
      t.stopped && Snapshot(t.reply, t.complete, t.failure) == Snapshot(s.reply, s.complete, s.failure)
  {
    var records := before + [u];
    assert records[..|before|] == before;
    ScannedMarks(textOf, records, |before|);
  }

  /** Whatever follows the next prompt, the reply to this one stays as it was before it. */
  lemma NextPromptEndsReply(textOf: TextOf, records: seq<Record>, afterCursor: nat, prompt: string, k: nat, u: Record, more: seq<Record>)
    requires FirstMatch(textOf, records, afterCursor, prompt) == Some(k)
    requires NextPrompt(textOf, records[k + 1..] + [u], |records| - k - 1)
    ensures SnapshotOf(textOf, records + [u] + more, afterCursor, prompt) == SnapshotOf(textOf, records, afterCursor, prompt)
  {
    FirstMatchStays(textOf, records, [u] + more, afterCursor, prompt);
    assert records + [u] + more == records + ([u] + more);
    assert (records + [u] + more)[k + 1..] == records[k + 1..] + [u] + more;
    StoppedAfterPrompt(textOf, records[k + 1..], u, more);
    SnapshotFrom(textOf, records, afterCursor, prompt, k);
    SnapshotFrom(textOf, records + [u] + more, afterCursor, prompt, k);
  }

  lemma SnapshotFrom(textOf: TextOf, records: seq<Record>, afterCursor: nat, prompt: string, k: nat)
    requires FirstMatch(textOf, records, afterCursor, prompt) == Some(k)
    ensures
      var s := ScanOf(textOf, records[k + 1..]);
      SnapshotOf(textOf, records, afterCursor, prompt) == Snapshot(s.reply, s.complete, s.failure)
  {
  }

  lemma StoppedAfterPrompt(textOf: TextOf, before: seq<Record>, u: Record, more: seq<Record>)
    requires NextPrompt(textOf, before + [u], |before|)
    ensures
      var s, t := ScanOf(textOf, before), ScanOf(textOf, before + [u] + more);
      Snapshot(t.reply, t.complete, t.failure) == Snapshot(s.reply, s.complete, s.failure)
  {
    StopsAtPrompt(textOf, before, u);
    StoppedStays(textOf, before + [u], before + [u] + more);
  }

  /** A snapshot is complete exactly when the scanned part ends in a completion or a final answer. */
  lemma {:induction false} CompleteIff(textOf: TextOf, records: seq<Record>)
    ensures ScanOf(textOf, records).complete <==>
              exists j :: 0 <= j < |records| && Concludes(textOf, records, j)
    decreases |records|
  {
    if records != [] {
      var n := |records| - 1;
      var front := records[..n];
      CompleteIff(textOf, front);
      CompleteIsStopped(textOf, front);
      forall j | 0 <= j < n
        ensures Concludes(textOf, front, j) <==> Concludes(textOf, records, j)
      {
        assert front[..j] == records[..j];
      }
      CompleteNext(textOf, ScanOf(textOf, front), records[n]);
      if ScanOf(textOf, front).complete {
        var j :| 0 <= j < n && Concludes(textOf, front, j);
        assert Concludes(textOf, records, j);
      }
      assert Concludes(textOf, records, n) <==>
        !ScanOf(textOf, front).stopped && (IsCompleted(records[n]) || IsFinal(textOf, records[n]));
    }
  }

  predicate Concludes(textOf: TextOf, records: seq<Record>, j: nat)
    requires j < |records|
  {
    Scanned(textOf, records, j) && (IsCompleted(records[j]) || IsFinal(textOf, records[j]))
  }

  lemma CompleteNext(textOf: TextOf, s: Scan, r: Record)
    requires s.complete ==> s.stopped
    ensures Step(textOf, s, r).complete <==> s.complete || (!s.stopped && (IsCompleted(r) || IsFinal(textOf, r)))
  {
  }

  /** Who speaks: the kind of a record decides, and the role in its payload only where the kind does not. */
  lemma SpeakerIs(r: Record)
    ensures
      var users, assistants := {"user", "userMessage", "user_message_chunk"}, {"assistant", "agentMessage", "agent_message_chunk"};
      var role := AsStr(Get(r.payload, "role"));
      && (RoleOf(r) == Some(User) <==>
            r.eventType in users || (r.eventType !in assistants && role == Some("user")))
      && (RoleOf(r) == Some(Assistant) <==>
            r.eventType in assistants || (r.eventType !in users && role == Some("assistant")))
  {
  }

  /** What counts as said: anything with text but the notes on progress; it is final when its phase says so. */
  lemma SaidIff(textOf: TextOf, r: Record)
    requires r.eventType != "turn_failed" && r.eventType != "turn_completed"
    ensures
      var phase := AsStr(Get(r.payload, "phase"));
      && (Answers(textOf, r) <==> RoleOf(r) == Some(Assistant) && textOf(r.payload).Some? && phase != Some("commentary"))
      && (IsFinal(textOf, r) <==> RoleOf(r) == Some(Assistant) && textOf(r.payload).Some? && phase == Some("final_answer"))
      && (Continues(textOf, r) <==>
            RoleOf(r) == Some(User) && textOf(r.payload).Some? && AsciiLower(Trim(textOf(r.payload).value)) == "continue")
  {
  }

  /** The ends of a turn are never taken for something said. */
  lemma EndsAreNotSaid(textOf: TextOf, r: Record)
    ensures IsFailed(r) <==> r.eventType == "turn_failed"
    ensures IsCompleted(r) <==> r.eventType == "turn_completed"
    ensures IsFailed(r) || IsCompleted(r) ==> !Answers(textOf, r) && !Continues(textOf, r)
  {
  }

  /** The prompt of a request is the first user record after the cursor with its text, up to white space at the ends. */
  lemma PromptIs(textOf: TextOf, records: seq<Record>, afterCursor: nat, prompt: string, k: nat)
    ensures FirstMatch(textOf, records, afterCursor, prompt) == Some(k) <==>
              && k < |records| && IsPrompt(textOf, records[k], afterCursor, Trim(prompt))
              && forall j :: 0 <= j < k ==> !IsPrompt(textOf, records[j], afterCursor, Trim(prompt))
  {
    var found := FirstMatch(textOf, records, afterCursor, prompt);
    assert forall j :: 0 <= j < |records| ==>
      (Matches(textOf, records[j], afterCursor, prompt) <==> IsPrompt(textOf, records[j], afterCursor, Trim(prompt)));
  }

  predicate IsPrompt(textOf: TextOf, r: Record, afterCursor: nat, trimmed: string) {
    && RoleOf(r) == Some(User) && r.cursor.Some? && afterCursor < r.cursor.value
    && textOf(r.payload).Some? && Trim(textOf(r.payload).value) == trimmed
  }

  // ---- what is reported ----

  predicate Clears(textOf: TextOf, r: Record) {
    IsCompleted(r) || Continues(textOf, r) || IsFinal(textOf, r)
  }

  /** A scanned record that replaces or clears a failure before it. */
  predicate Overrides(textOf: TextOf, records: seq<Record>, j: nat)
    requires j < |records|
  {
    Scanned(textOf, records, j) && (IsFailed(records[j]) || Clears(textOf, records[j]))
  }

  /** A failure in the scanned part that no later failure replaces and nothing later clears. */
  predicate StandingFailure(textOf: TextOf, records: seq<Record>, i: nat) {
    && i < |records| && IsFailed(records[i]) && Scanned(textOf, records, i)
    && forall j :: i < j < |records| ==> !Overrides(textOf, records, j)
  }

  lemma OverridesInFront(textOf: TextOf, records: seq<Record>, n: nat, j: nat)
    requires j < n <= |records|
    ensures Scanned(textOf, records[..n], j) <==> Scanned(textOf, records, j)
    ensures Overrides(textOf, records[..n], j) <==> Overrides(textOf, records, j)
  {
    assert records[..n][..j] == records[..j];
  }

  lemma StandingNext(textOf: TextOf, records: seq<Record>, i: nat)
    requires records != [] && i < |records| - 1
    ensures StandingFailure(textOf, records, i) <==>
            StandingFailure(textOf, records[..|records| - 1], i) && !Overrides(textOf, records, |records| - 1)
  {
    var n := |records| - 1;
    forall j | 0 <= j < n
      ensures Scanned(textOf, records[..n], j) <==> Scanned(textOf, records, j)
      ensures Overrides(textOf, records[..n], j) <==> Overrides(textOf, records, j)
    {
      OverridesInFront(textOf, records, n, j);
    }
  }

  ghost predicate Stands(textOf: TextOf, records: seq<Record>, failure: Value) {
    exists i: nat :: StandingFailure(textOf, records, i) && records[i].payload == failure
  }

  lemma FailureNext(textOf: TextOf, s: Scan, r: Record)
    ensures Step(textOf, s, r).failure ==
            if s.stopped || (!IsFailed(r) && !Clears(textOf, r)) then s.failure
            else if IsFailed(r) then Some(r.payload) else None
  {
  }

  lemma StandsInFront(textOf: TextOf, records: seq<Record>, failure: Value)
    requires records != [] && !Overrides(textOf, records, |records| - 1)
    ensures Stands(textOf, records, failure) <==> Stands(textOf, records[..|records| - 1], failure)
  {
    var n := |records| - 1;
    var front := records[..n];
    forall i: nat | i <= n
      ensures StandingFailure(textOf, records, i) && records[i].payload == failure <==>
              i < n && StandingFailure(textOf, front, i) && front[i].payload == failure
    {
      if i < n {
        StandingNext(textOf, records, i);
      }
    }
    if Stands(textOf, records, failure) {
      var i: nat :| StandingFailure(textOf, records, i) && records[i].payload == failure;
      assert StandingFailure(textOf, front, i);
    }
    if Stands(textOf, front, failure) {
      var i: nat :| StandingFailure(textOf, front, i) && front[i].payload == failure;
      assert StandingFailure(textOf, records, i);
    }
  }

  lemma StandsLast(textOf: TextOf, records: seq<Record>, failure: Value)
    requires records != [] && Overrides(textOf, records, |records| - 1)
    ensures Stands(textOf, records, failure) <==>
            IsFailed(records[|records| - 1]) && records[|records| - 1].payload == failure
  {
    var n := |records| - 1;
    forall i: nat | StandingFailure(textOf, records, i)
      ensures i == n
    {
    }
    if IsFailed(records[n]) {
      assert StandingFailure(textOf, records, n);
    }
  }

  /** The reported failure is the last one in the scanned part that no continuation, completion or final answer clears. */
  lemma {:induction false} FailureIsStanding(textOf: TextOf, records: seq<Record>, failure: Value)
    ensures ScanOf(textOf, records).failure == Some(failure) <==> Stands(textOf, records, failure)
    decreases |records|
  {
    if records != [] {
      var front := records[..|records| - 1];
      FailureIsStanding(textOf, front, failure);
      FailureNext(textOf, ScanOf(textOf, front), records[|front|]);
      if Overrides(textOf, records, |front|) {
        StandsLast(textOf, records, failure);
      } else {
        StandsInFront(textOf, records, failure);
      }
    }
  }

  predicate IsChunk(r: Record) {
    r.eventType == "agent_message_chunk"
  }

  /** The texts of the chunks among the scanned answers, in order. */
  function ScannedChunks(textOf: TextOf, records: seq<Record>): seq<string> {
    if records == [] then []
    else
      var n := |records| - 1;
      ScannedChunks(textOf, records[..n])
      + if Scanned(textOf, records, n) && Answers(textOf, records[n]) && IsChunk(records[n])
        then [textOf(records[n].payload).value] else []
  }

  lemma ChunksNext(textOf: TextOf, s: Scan, r: Record)
    ensures Step(textOf, s, r).chunks ==
            if !s.stopped && Answers(textOf, r) && IsChunk(r) then s.chunks + textOf(r.payload).value else s.chunks
  {
  }

  lemma {:induction false} ChunksAreJoined(textOf: TextOf, records: seq<Record>)
    ensures ScanOf(textOf, records).chunks == Join(ScannedChunks(textOf, records))
    decreases |records|
  {
    if records != [] {
      var n := |records| - 1;
      var front := ScannedChunks(textOf, records[..n]);
      ChunksAreJoined(textOf, records[..n]);
      ChunksNext(textOf, ScanOf(textOf, records[..n]), records[n]);
      if Scanned(textOf, records, n) && Answers(textOf, records[n]) && IsChunk(records[n]) {
        JoinAppend(front, textOf(records[n].payload).value);
      } else {
        assert front + [] == front;
      }
    }
  }

  /** What a reply is when this record gives it: its own text, or every chunk up to it joined. */
  function ReplyAt(textOf: TextOf, records: seq<Record>, k: nat): string
    requires k < |records| && Answers(textOf, records[k])
  {
    if IsChunk(records[k]) then Join(ScannedChunks(textOf, records[..k + 1])) else textOf(records[k].payload).value
  }

  /** An answer before the scan stops. */
  predicate IsHeard(textOf: TextOf, records: seq<Record>, k: nat) {
    k < |records| && Scanned(textOf, records, k) && Answers(textOf, records[k])
  }

  /** The last thing the assistant says before the scan stops. */
  predicate LastAnswer(textOf: TextOf, records: seq<Record>, k: nat) {
    IsHeard(textOf, records, k) && forall j :: k < j < |records| ==> !IsHeard(textOf, records, j)
  }

  lemma HeardInFront(textOf: TextOf, records: seq<Record>, k: nat)
    requires k < |records| - 1
    ensures IsHeard(textOf, records[..|records| - 1], k) <==> IsHeard(textOf, records, k)
  {
    assert records[..|records| - 1][..k] == records[..k];
  }

  lemma LastAnswerInFront(textOf: TextOf, records: seq<Record>, k: nat)
    requires LastAnswer(textOf, records, k) && k < |records| - 1
    ensures LastAnswer(textOf, records[..|records| - 1], k)
    ensures ReplyAt(textOf, records[..|records| - 1], k) == ReplyAt(textOf, records, k)
  {
    var front := records[..|records| - 1];
    assert front[..k + 1] == records[..k + 1];
    forall j | k <= j < |front|
      ensures IsHeard(textOf, front, j) <==> IsHeard(textOf, records, j)
    {
      HeardInFront(textOf, records, j);
    }
  }

  /** Up to where the scan stops, the reply is what the assistant said last, all chunks so far being joined. */
  lemma {:induction false} ReplyIsLastAnswer(textOf: TextOf, records: seq<Record>, k: nat)
    requires LastAnswer(textOf, records, k)
    ensures ScanOf(textOf, records).reply == Some(ReplyAt(textOf, records, k))
    decreases |records|
  {
    var n := |records| - 1;
    if k == n {
      ChunksAreJoined(textOf, records);
      assert records[..n + 1] == records;
    } else {
      LastAnswerInFront(textOf, records, k);
      ReplyIsLastAnswer(textOf, records[..n], k);
      assert !IsHeard(textOf, records, n);
    }
  }

  lemma HeardBefore(textOf: TextOf, records: seq<Record>)
    requires records != []
    ensures
      var front := records[..|records| - 1];
      (exists j: nat :: IsHeard(textOf, records, j)) <==>
      IsHeard(textOf, records, |front|) || exists j: nat :: IsHeard(textOf, front, j)
  {
    var n := |records| - 1;
    forall j: nat | j < n
      ensures IsHeard(textOf, records[..n], j) <==> IsHeard(textOf, records, j)
    {
      HeardInFront(textOf, records, j);
    }
    if j: nat :| IsHeard(textOf, records[..n], j) {
      assert IsHeard(textOf, records, j);
    }
    if j: nat :| IsHeard(textOf, records, j) && j < n {
      assert IsHeard(textOf, records[..n], j);
    }
  }

  lemma ReplyNext(textOf: TextOf, s: Scan, r: Record)
    ensures Step(textOf, s, r).reply.None? <==> s.reply.None? && (s.stopped || !Answers(textOf, r))
  {
  }

  /** There is no reply exactly when the assistant says nothing before the scan stops. */
  lemma {:induction false} NoReplyIff(textOf: TextOf, records: seq<Record>)
    ensures ScanOf(textOf, records).reply.None? <==> forall j: nat :: !IsHeard(textOf, records, j)
    decreases |records|
  {
    if records != [] {
      var n := |records| - 1;
      NoReplyIff(textOf, records[..n]);
      HeardBefore(textOf, records);
      ReplyNext(textOf, ScanOf(textOf, records[..n]), records[n]);
      assert IsHeard(textOf, records, n) <==> !ScanOf(textOf, records[..n]).stopped && Answers(textOf, records[n]);
    }
  }
}
