/**
 The mailbox of agent requests: a bounded queue in which a repeated request within a window is
 answered by the one already there, and which can refuse new work while any is pending.
 */
module Mailbox {
  import opened Wrappers

  const LIMIT := 100
  const DEDUPE_WINDOW_MS := 60_000

  type RequestId = nat

  /** What identifies a request; times are in milliseconds of whatever clock it read. */
  datatype Card = Card(id: RequestId, dedupeKey: DedupeKey, createdAt: nat)

  datatype DedupeKey = DedupeKey(text: string)

  datatype Insertion = Reused(at: nat) | Blocked(at: nat) | Accepted

  // ---- one insertion ----

  /** Within the window, or dated before: subtraction stops at zero. */
  predicate Repeats(existing: Card, card: Card) {
    && existing.dedupeKey == card.dedupeKey
    && (if existing.createdAt <= card.createdAt then card.createdAt - existing.createdAt else 0) <= DEDUPE_WINDOW_MS
  }

  function LastRepeated(box: seq<Card>, card: Card): (k: Option<nat>)
    ensures k.Some? ==> k.value < |box| && Repeats(box[k.value], card)
    ensures k.Some? ==> forall j :: k.value < j < |box| ==> !Repeats(box[j], card)
    ensures k.None? ==> forall j :: 0 <= j < |box| ==> !Repeats(box[j], card)
  {
    LastWhere(box, existing => Repeats(existing, card))
  }

  function LastPending(box: seq<Card>, pending: set<RequestId>): (k: Option<nat>)
    ensures k.Some? ==> k.value < |box| && box[k.value].id in pending
    ensures k.Some? ==> forall j :: k.value < j < |box| ==> box[j].id !in pending
    ensures k.None? ==> forall j :: 0 <= j < |box| ==> box[j].id !in pending
  {
    LastWhere(box, (existing: Card) => existing.id in pending)
  }

  function Inserted(box: seq<Card>, pending: set<RequestId>, card: Card, blockOnPending: bool): Insertion {
    var repeated, waiting := LastRepeated(box, card), LastPending(box, pending);
    if repeated.Some? then Reused(repeated.value)
    else if blockOnPending && waiting.Some? then Blocked(waiting.value)
    else Accepted
  }

  function Trimmed(box: seq<Card>): seq<Card> {
    if |box| < LIMIT then box else box[|box| - (LIMIT - 1)..]
  }

  function After(box: seq<Card>, card: Card, insertion: Insertion): seq<Card> {
    if insertion == Accepted then Trimmed(box) + [card] else box
  }

  // ---- the mailbox, changed in place ----

  datatype State = Pending | Completed(reply: string) | Failed(error: string)

  class MailboxEntry {
    const card: Card
    var state: State

    constructor (card: Card)
      ensures this.card == card && state == Pending
    {
      this.card := card;
      state := Pending;
    }

    method Finish(state: State)
      modifies this
      ensures this.state == state
    {
      this.state := state;
    }
  }

  ghost function CardsOf(entries: seq<MailboxEntry>): (box: seq<Card>)
    ensures |box| == |entries|
    ensures forall i :: 0 <= i < |entries| ==> box[i] == entries[i].card
  {
    seq(|entries|, i requires 0 <= i < |entries| => entries[i].card)
  }

  class MailboxQueue {
    var entries: seq<MailboxEntry>

    ghost function Cards(): seq<Card>
      reads this
    {
      CardsOf(entries)
    }

    /** Which of the retained requests are pending. */
    ghost predicate IsPending(pending: set<RequestId>)
      reads this, entries
    {
      forall i :: 0 <= i < |entries| ==> (entries[i].card.id in pending <==> entries[i].state == Pending)
    }

    constructor ()
      ensures entries == []
    {
      entries := [];
    }

    method FindRepeated(card: Card) returns (k: Option<nat>)
      ensures k == LastRepeated(Cards(), card)
    {
      ghost var box := Cards();
      var i := |entries|;
      assert box[..i] == box;
      while i > 0
        invariant 0 <= i <= |entries|
        invariant LastRepeated(box, card) == LastRepeated(box[..i], card)
      {
        i := i - 1;
        assert box[..i + 1][..i] == box[..i];
        if Repeats(entries[i].card, card) {
          return Some(i);
        }
      }
      return None;
    }

    method FindPending(ghost pending: set<RequestId>) returns (k: Option<nat>)
      requires IsPending(pending)
      ensures k == LastPending(Cards(), pending)
    {
      ghost var box := Cards();
      var i := |entries|;
      assert box[..i] == box;
      while i > 0
        invariant 0 <= i <= |entries|
        invariant LastPending(box, pending) == LastPending(box[..i], pending)
      {
        i := i - 1;
        assert box[..i + 1][..i] == box[..i];
        if entries[i].state == Pending {
          return Some(i);
        }
      }
      return None;
    }

    /** The entry that answers the request, and how: a repeat or a refusal leaves the mailbox as it is. */
    method Insert(entry: MailboxEntry, blockOnPending: bool, ghost pending: set<RequestId>)
      returns (answer: MailboxEntry, insertion: Insertion)
      requires IsPending(pending)
      modifies this
      ensures insertion == Inserted(old(Cards()), pending, entry.card, blockOnPending)
      ensures Cards() == After(old(Cards()), entry.card, insertion)
      ensures match insertion
              case Accepted => answer == entry && |entries| > 0 && entries[|entries| - 1] == entry
              case Reused(k) => k < |old(entries)| && answer == old(entries)[k] && entries == old(entries)
              case Blocked(k) => k < |old(entries)| && answer == old(entries)[k] && entries == old(entries)
    {
      var repeated := FindRepeated(entry.card);
      if repeated.Some? {
        return entries[repeated.value], Reused(repeated.value);
      }
      var waiting := FindPending(pending);
      if blockOnPending && waiting.Some? {
        return entries[waiting.value], Blocked(waiting.value);
      }
      MakeRoom();
      entries := entries + [entry];
      return entry, Accepted;
    }

    method MakeRoom()
      modifies this
      ensures Cards() == Trimmed(old(Cards()))
    {
      ghost var was := entries;
      while |entries| >= LIMIT
        invariant |entries| <= |was| && entries == was[|was| - |entries|..]
        invariant if |was| < LIMIT then |entries| == |was| else |entries| >= LIMIT - 1
      {
        entries := entries[1..];
      }
    }
  }

  // ---- every run of requests and workers ----

  /** What works on an accepted request: one task that sends it, then one that waits for the reply. */
  datatype Worker = Starting | Awaiting | Done(completed: bool)

  datatype Office = Office(box: seq<Card>, workers: map<RequestId, Worker>)

  const EMPTY := Office([], map[])

  datatype Action =
    | Request(card: Card, blockOnPending: bool)
    | Started(id: RequestId, ok: bool)
    | Replied(id: RequestId, ok: bool)

  function PendingIn(o: Office): set<RequestId> {
    set id | id in o.workers && !o.workers[id].Done?
  }

  function Step(o: Office, a: Action): Option<Office> {
    match a
    case Request(card, block) =>
      if card.id in o.workers then None
      else
        var insertion := Inserted(o.box, PendingIn(o), card, block);
        Some(Office(After(o.box, card, insertion),
                    if insertion == Accepted then o.workers[card.id := Starting] else o.workers))
    case Started(id, ok) =>
      if id in o.workers && o.workers[id] == Starting
      then Some(o.(workers := o.workers[id := if ok then Awaiting else Done(false)])) else None
    case Replied(id, ok) =>
      if id in o.workers && o.workers[id] == Awaiting then Some(o.(workers := o.workers[id := Done(ok)])) else None
  }

  function Run(o: Office, actions: seq<Action>): Option<Office>
    decreases |actions|
  {
    if actions == [] then Some(o)
    else
      var next := Step(o, actions[0]);
      if next.None? then None else Run(next.value, actions[1..])
  }

  /** Two requests, one after the other, do not repeat each other within the window. */
  predicate Apart(earlier: Card, later: Card) {
    earlier.dedupeKey == later.dedupeKey ==> later.createdAt > earlier.createdAt + DEDUPE_WINDOW_MS
  }

  ghost predicate Spaced(box: seq<Card>) {
    forall i, j :: 0 <= i < j < |box| ==> Apart(box[i], box[j])
  }

  ghost predicate Ok(o: Office) {
    && |o.box| <= LIMIT
    && Spaced(o.box)
    && (forall i :: 0 <= i < |o.box| ==> o.box[i].id in o.workers)
    && (forall i, j :: 0 <= i < j < |o.box| ==> o.box[i].id != o.box[j].id)
  }

  lemma SpacedDrop(box: seq<Card>, d: nat)
    requires Spaced(box) && d <= |box|
    ensures Spaced(box[d..])
  {
    forall i, j | 0 <= i < j < |box| - d
      ensures Apart(box[d..][i], box[d..][j])
    {
      assert Apart(box[d + i], box[d + j]);
    }
  }

  lemma SpacedPush(box: seq<Card>, card: Card)
    requires Spaced(box) && forall i :: 0 <= i < |box| ==> !Repeats(box[i], card)
    ensures Spaced(box + [card])
  {
    var after := box + [card];
    forall i, j | 0 <= i < j < |after|
      ensures Apart(after[i], after[j])
    {
      if j < |box| {
        assert Apart(box[i], box[j]);
      } else {
        assert !Repeats(box[i], card);
      }
    }
  }

  lemma AcceptedOk(o: Office, card: Card, block: bool)
    requires Ok(o) && card.id !in o.workers && Inserted(o.box, PendingIn(o), card, block) == Accepted
    ensures Ok(Office(After(o.box, card, Accepted), o.workers[card.id := Starting]))
  {
    var d := |o.box| - |Trimmed(o.box)|;
    assert Trimmed(o.box) == o.box[d..];
    SpacedDrop(o.box, d);
    SpacedPush(o.box[d..], card);
    var after := After(o.box, card, Accepted);
    assert forall i :: 0 <= i < |after| - 1 ==> after[i] == o.box[d + i];
  }

  lemma StepOk(o: Office, a: Action, o': Office)
    requires Ok(o) && Step(o, a) == Some(o')
    ensures Ok(o')
  {
    if a.Request? && Inserted(o.box, PendingIn(o), a.card, a.blockOnPending) == Accepted {
      AcceptedOk(o, a.card, a.blockOnPending);
    }
  }

  lemma {:induction false} RunOk(o: Office, actions: seq<Action>, o': Office)
    requires Ok(o) && Run(o, actions) == Some(o')
    ensures Ok(o')
    decreases |actions|
  {
    if actions != [] {
      var next := Step(o, actions[0]).value;
      StepOk(o, actions[0], next);
      RunOk(next, actions[1..], o');
    }
  }

  /**
   In every run, whatever the clock: the mailbox holds at most its limit, and of two requests in it
   with the same key the later one is newer by more than the window.
   */
  lemma MailboxIsBoundedAndSpaced(actions: seq<Action>, o: Office)
    requires Run(EMPTY, actions) == Some(o)
    ensures |o.box| <= 100
    ensures forall i, j :: 0 <= i < j < |o.box| && o.box[i].dedupeKey == o.box[j].dedupeKey ==>
              o.box[j].createdAt - o.box[i].createdAt > 60_000
  {
    RunOk(EMPTY, actions, o);
    assert forall i, j :: 0 <= i < j < |o.box| ==> Apart(o.box[i], o.box[j]);
  }

  /** A request with the same key that is dated at most a window before, or after. */
  predicate SameWork(box: seq<Card>, k: nat, card: Card) {
    k < |box| && box[k].dedupeKey == card.dedupeKey && card.createdAt <= box[k].createdAt + DEDUPE_WINDOW_MS
  }

  lemma SameWorkRepeats(box: seq<Card>, card: Card)
    ensures forall k :: 0 <= k < |box| ==> (Repeats(box[k], card) <==> SameWork(box, k, card))
  {
  }

  predicate NoneAfter(box: seq<Card>, k: nat, card: Card) {
    forall j :: k < j < |box| ==> !SameWork(box, j, card)
  }

  /**
   A request is answered by the latest retained request for the same work; without one, a request that
   blocks is refused for the latest retained one that is pending; every other is accepted.
   */
  lemma InsertedIff(box: seq<Card>, pending: set<RequestId>, card: Card, block: bool, k: nat)
    ensures Inserted(box, pending, card, block) == Reused(k) <==> SameWork(box, k, card) && NoneAfter(box, k, card)
    ensures Inserted(box, pending, card, block) == Blocked(k) <==>
              && (forall i: nat :: !SameWork(box, i, card)) && block
              && k < |box| && box[k].id in pending && forall j :: k < j < |box| ==> box[j].id !in pending
    ensures Inserted(box, pending, card, block) == Accepted <==>
              && (forall i: nat :: !SameWork(box, i, card))
              && (block ==> forall i :: 0 <= i < |box| ==> box[i].id !in pending)
  {
    SameWorkRepeats(box, card);
    var repeated, waiting := LastRepeated(box, card), LastPending(box, pending);
  }

  /** Accepting keeps the newest, up to the limit. */
  lemma AcceptedKeepsNewest(box: seq<Card>, card: Card)
    requires |box| <= LIMIT
    ensures After(box, card, Accepted) == (if |box| < LIMIT then box else box[1..]) + [card]
  {
  }

  /** In a run, a request blocks exactly while some retained one has neither failed to start nor been replied to. */
  lemma RequestAcceptedIff(o: Office, card: Card, block: bool, o': Office)
    requires Ok(o) && Step(o, Request(card, block)) == Some(o')
    ensures card.id !in o.workers
    ensures card.id in o'.workers <==>
              && (forall i: nat :: !SameWork(o.box, i, card))
              && (block ==> forall i :: 0 <= i < |o.box| ==> o.workers[o.box[i].id].Done?)
    ensures card.id in o'.workers ==>
              o' == Office((if |o.box| < LIMIT then o.box else o.box[1..]) + [card], o.workers[card.id := Starting])
    ensures card.id !in o'.workers ==> o' == o
  {
    InsertedIff(o.box, PendingIn(o), card, block, 0);
    assert forall i :: 0 <= i < |o.box| ==> (o.box[i].id in PendingIn(o) <==> !o.workers[o.box[i].id].Done?);
    AcceptedKeepsNewest(o.box, card);
  }

  /** What was reported of a request: whether it started, and what came of it. */
  ghost predicate Reported(actions: seq<Action>, id: RequestId, worker: Worker) {
    match worker
    case Starting => Started(id, true) !in actions && Started(id, false) !in actions
    case Awaiting => Started(id, true) in actions && Replied(id, true) !in actions && Replied(id, false) !in actions
    case Done(completed) =>
      if completed then Started(id, true) in actions && Replied(id, true) in actions
      else Started(id, false) in actions || (Started(id, true) in actions && Replied(id, false) in actions)
  }

  /** Nothing is reported of a request before it is accepted. */
  ghost predicate AllReported(o: Office, actions: seq<Action>) {
    && (forall id :: id in o.workers ==> Reported(actions, id, o.workers[id]))
    && (forall id, ok :: Started(id, ok) in actions || Replied(id, ok) in actions ==> id in o.workers)
    && (forall id, ok :: Replied(id, ok) in actions ==> o.workers[id].Done?)
  }

  lemma StepReported(o: Office, before: seq<Action>, a: Action, o': Office)
    requires AllReported(o, before) && Step(o, a) == Some(o')
    ensures AllReported(o', before + [a])
  {
    forall id | id in o'.workers
      ensures Reported(before + [a], id, o'.workers[id])
    {
      if id in o.workers {
        assert Reported(before, id, o.workers[id]);
      }
    }
  }

  lemma {:induction false} RunReported(o: Office, before: seq<Action>, actions: seq<Action>, o': Office)
    requires AllReported(o, before) && Run(o, actions) == Some(o')
    ensures AllReported(o', before + actions)
    decreases |actions|
  {
    if actions == [] {
      assert before + actions == before;
    } else {
      var next := Step(o, actions[0]).value;
      StepReported(o, before, actions[0], next);
      RunReported(next, before + [actions[0]], actions[1..], o');
      assert before + [actions[0]] + actions[1..] == before + actions;
    }
  }

  /** In every run a request is completed exactly when it was started and replied to, and failed exactly when either failed. */
  lemma OutcomeAsReported(actions: seq<Action>, o: Office, id: RequestId)
    requires Run(EMPTY, actions) == Some(o) && id in o.workers
    ensures Reported(actions, id, o.workers[id])
  {
    RunReported(EMPTY, [], actions, o);
    assert [] + actions == actions;
  }

  /** An entry leaves "pending" at most once: what its worker reported stays. */
  lemma {:induction false} DoneStaysDone(o: Office, actions: seq<Action>, o': Office, id: RequestId)
    requires Run(o, actions) == Some(o') && id in o.workers && o.workers[id].Done?
    ensures id in o'.workers && o'.workers[id] == o.workers[id]
    decreases |actions|
  {
    if actions != [] {
      DoneStaysDone(Step(o, actions[0]).value, actions[1..], o', id);
    }
  }

  /** Every request that is pending is still retained, and there is at most one. */
  ghost predicate OnePending(o: Office) {
    && (forall id :: id in PendingIn(o) ==> exists i :: 0 <= i < |o.box| && o.box[i].id == id)
    && (forall a, b :: a in PendingIn(o) && b in PendingIn(o) ==> a == b)
  }

  lemma StepOnePending(o: Office, a: Action, o': Office)
    requires OnePending(o) && Step(o, a) == Some(o') && (a.Request? ==> a.blockOnPending)
    ensures OnePending(o')
  {
    if a.Request? {
      var insertion := Inserted(o.box, PendingIn(o), a.card, true);
      if insertion == Accepted {
        InsertedIff(o.box, PendingIn(o), a.card, true, 0);
        assert PendingIn(o) == {};
        assert PendingIn(o') == {a.card.id};
        assert o'.box[|o'.box| - 1].id == a.card.id;
      } else {
        assert PendingIn(o') == PendingIn(o);
      }
    } else {
      assert PendingIn(o') <= PendingIn(o);
    }
  }

  /** When every request blocks on pending work, at most one of all requests ever accepted is pending. */
  lemma {:induction false} BlockingRunsHaveOnePending(o: Office, actions: seq<Action>, o': Office)
    requires OnePending(o) && Run(o, actions) == Some(o')
    requires forall i :: 0 <= i < |actions| && actions[i].Request? ==> actions[i].blockOnPending
    ensures OnePending(o')
    decreases |actions|
  {
    if actions != [] {
      var next := Step(o, actions[0]).value;
      StepOnePending(o, actions[0], next);
      BlockingRunsHaveOnePending(next, actions[1..], o');
    }
  }
}
