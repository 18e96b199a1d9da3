/**
 The gate between a pane's transcript and the client: a resumed Codex pane may replay its
 history before the current prompt, so only what follows the last echo of that prompt is
 shown, and only once the turn is complete. Any other turn shows each record as it arrives.
 */
module TurnGate {
  import opened Wrappers

  datatype Backend = Claude | Codex | Opencode | Grok

  datatype Record = Record(eventType: string, text: Option<string>, cursor: nat)

  predicate IsEcho(prompt: string, r: Record) {
    r.eventType == "userMessage" && r.text == Some(prompt)
  }

  // ---- the batch specification ----

  function LastEcho(prompt: string, records: seq<Record>): (k: Option<nat>)
    ensures k.Some? ==> k.value < |records| && IsEcho(prompt, records[k.value])
    ensures k.Some? ==> forall j :: k.value < j < |records| ==> !IsEcho(prompt, records[j])
    ensures k.None? ==> forall j :: 0 <= j < |records| ==> !IsEcho(prompt, records[j])
  {
    LastWhere(records, r => IsEcho(prompt, r))
  }

  /** What a gated turn shows of everything it received. */
  function AfterLastEcho(prompt: string, records: seq<Record>): seq<Record> {
    var k := LastEcho(prompt, records);
    if k.None? then [] else records[k.value + 1..]
  }

  function Gated(backend: Backend, discardReplayedHistory: bool): bool {
    backend == Codex && discardReplayedHistory
  }

  // ---- the order of arrival and display ----

  datatype Moment = Received(record: Record) | Shown(record: Record)

  function AllReceived(records: seq<Record>): seq<Moment> {
    seq(|records|, i requires 0 <= i < |records| => Received(records[i]))
  }

  function AllShown(records: seq<Record>): seq<Moment> {
    seq(|records|, i requires 0 <= i < |records| => Shown(records[i]))
  }

  function ShownAtOnce(records: seq<Record>): seq<Moment> {
    if records == [] then []
    else
      var last := records[|records| - 1];
      ShownAtOnce(records[..|records| - 1]) + [Received(last), Shown(last)]
  }

  /** A gated turn shows nothing until it completes, and nothing at all if it does not. */
  function Timeline(gated: bool, prompt: string, records: seq<Record>, completes: bool): seq<Moment> {
    if !gated then ShownAtOnce(records)
    else AllReceived(records) + if completes then AllShown(AfterLastEcho(prompt, records)) else []
  }

  function ShownOf(timeline: seq<Moment>): seq<Record> {
    if timeline == [] then []
    else
      var last := timeline[|timeline| - 1];
      ShownOf(timeline[..|timeline| - 1]) + if last.Shown? then [last.record] else []
  }

  // ---- the gate, changed in place ----

  class TurnTranscriptGate {
    const prompt: Option<string>
    var sawBoundary: bool
    var buffered: seq<Record>
    ghost var received: seq<Record>

    ghost predicate Valid()
      reads this
    {
      if prompt.None? then buffered == []
      else
        && sawBoundary == LastEcho(prompt.value, received).Some?
        && buffered == AfterLastEcho(prompt.value, received)
    }

    constructor (backend: Backend, prompt: string, discardReplayedHistory: bool)
      ensures Valid() && received == []
      ensures this.prompt == if Gated(backend, discardReplayedHistory) then Some(prompt) else None
    {
      this.prompt := if backend == Codex && discardReplayedHistory then Some(prompt) else None;
      sawBoundary := false;
      buffered := [];
      received := [];
    }

    /** Whether the record is to be shown now; a gated turn keeps what follows the last echo so far. */
    method Accepts(record: Record) returns (now: bool)
      requires Valid()
      modifies this
      ensures Valid() && received == old(received) + [record]
      ensures now <==> prompt.None?
    {
      received := received + [record];
      assert received[..|received| - 1] == old(received);
      if prompt.None? {
        return true;
      }
      if record.eventType == "userMessage" && record.text == Some(prompt.value) {
        sawBoundary := true;
        buffered := [];
      } else if sawBoundary {
        buffered := buffered + [record];
      }
      return false;
    }

    method TakeBuffered() returns (taken: seq<Record>)
      modifies this`buffered
      ensures taken == old(buffered) && buffered == []
    {
      taken := buffered;
      buffered := [];
    }
  }

  /**
   One turn: the records received while it runs, those of the final drain, and, if it
   completes, what the gate kept.
   */
  method RunTurn(backend: Backend, prompt: string, discardReplayedHistory: bool, running: seq<Record>,
                 drained: seq<Record>, completes: bool) returns (timeline: seq<Moment>)
    ensures timeline == Timeline(Gated(backend, discardReplayedHistory), prompt,
                                 if completes then running + drained else running, completes)
  {
    var gate := new TurnTranscriptGate(backend, prompt, discardReplayedHistory);
    timeline := [];
    timeline := Receive(gate, running, timeline, prompt);
    assert [] + running == running;
    if !completes {
      return;
    }
    timeline := Receive(gate, drained, timeline, prompt);
    var kept := gate.TakeBuffered();
    ghost var all := running + drained;
    var i := 0;
    while i < |kept|
      invariant 0 <= i <= |kept|
      invariant timeline == Timeline(gate.prompt.Some?, prompt, all, false) + AllShown(kept[..i])
    {
      timeline := timeline + [Shown(kept[i])];
      assert AllShown(kept[..i + 1]) == AllShown(kept[..i]) + [Shown(kept[i])];
      i := i + 1;
    }
    assert kept[..i] == kept;
  }

  lemma TimelineNext(gated: bool, prompt: string, had: seq<Record>, record: Record)
    ensures Timeline(gated, prompt, had + [record], false) ==
            Timeline(gated, prompt, had, false) + [Received(record)] + if gated then [] else [Shown(record)]
  {
    var now := had + [record];
    assert now[..|had|] == had;
    if gated {
      assert AllReceived(now) == AllReceived(had) + [Received(record)];
    } else {
      assert ShownAtOnce(now) == ShownAtOnce(had) + [Received(record), Shown(record)];
    }
  }

  method Receive(gate: TurnTranscriptGate, records: seq<Record>, before: seq<Moment>, prompt: string)
    returns (timeline: seq<Moment>)
    requires gate.Valid() && (gate.prompt.Some? ==> gate.prompt.value == prompt)
    requires before == Timeline(gate.prompt.Some?, prompt, gate.received, false)
    modifies gate
    ensures gate.Valid() && gate.received == old(gate.received) + records
    ensures timeline == Timeline(gate.prompt.Some?, prompt, gate.received, false)
  {
    timeline := before;
    var i := 0;
    while i < |records|
      invariant 0 <= i <= |records|
      invariant gate.Valid() && gate.received == old(gate.received) + records[..i]
      invariant timeline == Timeline(gate.prompt.Some?, prompt, gate.received, false)
    {
      ghost var had := gate.received;
      var now := gate.Accepts(records[i]);
      TimelineNext(gate.prompt.Some?, prompt, had, records[i]);
      timeline := timeline + [Received(records[i])];
      if now {
        timeline := timeline + [Shown(records[i])];
      }
      assert records[..i + 1] == records[..i] + [records[i]];
      i := i + 1;
    }
    assert records[..i] == records;
  }

  // ---- what a reader of the client sees ----

  lemma {:induction false} ShownAtOnceShowsAll(records: seq<Record>)
    ensures ShownOf(ShownAtOnce(records)) == records
  {
    if records != [] {
      var front, last := records[..|records| - 1], records[|records| - 1];
      ShownAtOnceShowsAll(front);
      var timeline := ShownAtOnce(records);
      assert timeline == (ShownAtOnce(front) + [Received(last)]) + [Shown(last)];
      assert timeline[..|timeline| - 1] == ShownAtOnce(front) + [Received(last)];
      assert (ShownAtOnce(front) + [Received(last)])[..|ShownAtOnce(front)|] == ShownAtOnce(front);
    }
  }

  lemma {:induction false} ReceivedThenShown(received: seq<Record>, shown: seq<Record>)
    ensures ShownOf(AllReceived(received) + AllShown(shown)) == shown
    decreases |received| + |shown|
  {
    var timeline := AllReceived(received) + AllShown(shown);
    if shown != [] {
      ReceivedThenShown(received, shown[..|shown| - 1]);
      assert timeline[..|timeline| - 1] == AllReceived(received) + AllShown(shown[..|shown| - 1]);
    } else if received != [] {
      ReceivedThenShown(received[..|received| - 1], shown);
      assert timeline[..|timeline| - 1] == AllReceived(received[..|received| - 1]) + AllShown(shown);
    }
  }

  /** What the client sees of a turn. */
  function SeenOf(backend: Backend, discardReplayedHistory: bool, prompt: string, records: seq<Record>, completes: bool): seq<Record> {
    ShownOf(Timeline(Gated(backend, discardReplayedHistory), prompt, records, completes))
  }

  lemma TimelineShows(gated: bool, prompt: string, records: seq<Record>, completes: bool)
    ensures ShownOf(Timeline(gated, prompt, records, completes)) ==
            if !gated then records else if completes then AfterLastEcho(prompt, records) else []
  {
    ShownAtOnceShowsAll(records);
    var shown := if completes then AfterLastEcho(prompt, records) else [];
    ReceivedThenShown(records, shown);
  }

  /**
   Of a turn that may replay the history of a Codex session, the client sees nothing unless it completes with an echo
   of the prompt among its records, and then what followed the last echo; of any other turn it sees every record.
   */
  lemma TurnShows(backend: Backend, discardReplayedHistory: bool, prompt: string, records: seq<Record>, completes: bool)
    ensures
      var seen := SeenOf(backend, discardReplayedHistory, prompt, records, completes);
      var unechoed := forall i :: 0 <= i < |records| && records[i].eventType == "userMessage" ==> records[i].text != Some(prompt);
      && (backend != Codex || !discardReplayedHistory ==> seen == records)
      && (backend == Codex && discardReplayedHistory ==>
            && (!completes || unechoed ==> seen == [])
            && (forall k :: completes && 0 <= k < |records|
                            && records[k].eventType == "userMessage" && records[k].text == Some(prompt)
                            && (forall j :: k < j < |records| && records[j].eventType == "userMessage" ==>
                                  records[j].text != Some(prompt))
                  ==> seen == records[k + 1..]))
  {
    TimelineShows(Gated(backend, discardReplayedHistory), prompt, records, completes);
    var last := LastEcho(prompt, records);
  }

  /** Whatever history is replayed first, even with the same prompt in it, a completed turn shows just its own records. */
  lemma HistoryIsDiscarded(prompt: string, history: seq<Record>, echo: Record, turn: seq<Record>)
    requires echo.eventType == "userMessage" && echo.text == Some(prompt)
    requires forall i :: 0 <= i < |turn| && turn[i].eventType == "userMessage" ==> turn[i].text != Some(prompt)
    ensures SeenOf(Codex, true, prompt, history + [echo] + turn, true) == turn
  {
    TimelineShows(true, prompt, history + [echo] + turn, true);
    var all := history + [echo] + turn;
    var k := LastEcho(prompt, all);
    assert all[|history|] == echo;
    assert forall i :: |history| < i < |all| ==> all[i] == turn[i - |history| - 1];
    assert k == Some(|history|);
  }
}
