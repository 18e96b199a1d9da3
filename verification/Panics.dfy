/**
 The three places where the lock holder takes for granted a pane it has seen: the victim of
 an eviction, the session of a prompt and the session of a delete. The pane can be lost in
 between, to turns that work without the creation lock, and the handler then panics.
 */
module Panics {
  import opened Wrappers
  import opened SessionCatalog
  import opened SessionProtocol
  import opened Runs
  import SessionSafety

  // ---- losing a seat ----

  /** A turn unseats the session from the pane it is in. */
  predicate Unseats(s: State, a: Action, x: SessionId) {
    && a.Play? && (a.turn == UnseatStale || a.turn.SeePaneGone?) && a.t in s.talk.turns && s.talk.turns[a.t].x == x
    && x in s.catalog && s.catalog[x].pane == Some(s.talk.turns[a.t].pane)
  }

  lemma TurnSeats(s: State, t: TurnId, m: TurnMove, s': State, x: SessionId)
    requires t in s.talk.turns && TurnStep(s, t, m) == Some(s') && x in s.catalog
    ensures x in s'.catalog && s'.creator == s.creator
    ensures s'.catalog[x].pane == if Unseats(s, Play(t, m), x) then None else s.catalog[x].pane
    ensures s'.catalog[x].backend == if Unseats(s, Play(t, m), x) then None else s.catalog[x].backend
    ensures s.catalog[x].turn.None? ==> s'.catalog[x].turn.None?
  {
  }

  /** While the lock is held, nothing else gives or takes a pane. */
  lemma SeatLostIff(max: nat, s: State, a: Action, s': State, x: SessionId)
    requires Apply(max, s, a) == Some(s') && !SessionSafety.HoldsLock(a) && x in s.catalog
    ensures x in s'.catalog && s'.creator == s.creator
    ensures s'.catalog[x].pane == if Unseats(s, a, x) then None else s.catalog[x].pane
    ensures s'.catalog[x].backend == if Unseats(s, a, x) then None else s.catalog[x].backend
    ensures s.catalog[x].turn.None? ==> s'.catalog[x].turn.None?
  {
    if a.Play? {
      TurnSeats(s, a.t, a.turn, s', x);
    }
  }

  predicate Unlocked(actions: seq<Action>) {
    forall i :: 0 <= i < |actions| ==> !SessionSafety.HoldsLock(actions[i])
  }

  ghost predicate NeverUnseats(max: nat, s: State, actions: seq<Action>, x: SessionId)
    decreases |actions|
  {
    actions != [] && Apply(max, s, actions[0]).Some? ==>
      !Unseats(s, actions[0], x) && NeverUnseats(max, Apply(max, s, actions[0]).value, actions[1..], x)
  }

  lemma {:induction false} SeatStaysLost(max: nat, s: State, actions: seq<Action>, s': State, x: SessionId)
    requires Execute(max, s, actions) == Some(s') && Unlocked(actions) && x in s.catalog && s.catalog[x].pane.None?
    ensures x in s'.catalog && s'.catalog[x].pane.None? && s'.creator == s.creator
    ensures s.catalog[x].turn.None? ==> s'.catalog[x].turn.None?
    decreases |actions|
  {
    if actions != [] {
      var next := Apply(max, s, actions[0]).value;
      SeatLostIff(max, s, actions[0], next, x);
      SeatStaysLost(max, next, actions[1..], s', x);
    }
  }

  /** Over any stretch in which the lock holder does nothing, a session keeps its pane exactly when no turn unseats it. */
  lemma {:induction false} SeatKeptIff(max: nat, s: State, actions: seq<Action>, s': State, x: SessionId)
    requires Execute(max, s, actions) == Some(s') && Unlocked(actions) && x in s.catalog && s.catalog[x].pane.Some?
    ensures x in s'.catalog && s'.creator == s.creator
    ensures s'.catalog[x].pane.Some? <==> NeverUnseats(max, s, actions, x)
    ensures s'.catalog[x].pane.Some? ==> s'.catalog[x].pane == s.catalog[x].pane && s'.catalog[x].backend == s.catalog[x].backend
    ensures s.catalog[x].turn.None? ==> s'.catalog[x].turn.None?
    decreases |actions|
  {
    if actions != [] {
      var next := Apply(max, s, actions[0]).value;
      SeatLostIff(max, s, actions[0], next, x);
      if Unseats(s, actions[0], x) {
        SeatStaysLost(max, next, actions[1..], s', x);
      } else {
        SeatKeptIff(max, next, actions[1..], s', x);
      }
    }
  }

  // ---- the places that expect a pane ----

  predicate EvictionPanics(s: State) {
    s.creator.Taking?
    && (s.creator.victim !in s.catalog || (s.catalog[s.creator.victim].turn.None? && s.catalog[s.creator.victim].pane.None?))
  }

  predicate PromptPanics(s: State) {
    && s.creator.Seated? && s.creator.purpose.ToPrompt?
    && s.creator.x in s.catalog && s.catalog[s.creator.x].turn.None?
    && (s.catalog[s.creator.x].pane.None? || s.catalog[s.creator.x].backend.None?)
  }

  predicate DeletePanics(s: State) {
    && s.creator.Seated? && s.creator.purpose == ToDelete
    && (s.creator.x !in s.catalog || s.catalog[s.creator.x].pane.None?)
  }

  /** A prompt that has found its session resident panics exactly when a turn unseats it before the prompt's own turn can begin, and no other turn is active. */
  lemma PromptPanicsIff(max: nat, s: State, actions: seq<Action>, s': State)
    requires Execute(max, s, actions) == Some(s') && Unlocked(actions)
    requires s.creator.Seated? && s.creator.purpose.ToPrompt? && s.creator.x in s.catalog
    requires s.catalog[s.creator.x].pane.Some? && s.catalog[s.creator.x].backend.Some?
    ensures s.creator.x in s'.catalog
    ensures PromptPanics(s') <==> s'.catalog[s.creator.x].turn.None? && !NeverUnseats(max, s, actions, s.creator.x)
  {
    SeatKeptIff(max, s, actions, s', s.creator.x);
  }

  /** A delete that has found its session resident panics exactly when a turn unseats it first. */
  lemma DeletePanicsIff(max: nat, s: State, actions: seq<Action>, s': State)
    requires Execute(max, s, actions) == Some(s') && Unlocked(actions)
    requires s.creator.Seated? && s.creator.purpose == ToDelete && s.creator.x in s.catalog && s.catalog[s.creator.x].pane.Some?
    ensures DeletePanics(s') <==> !NeverUnseats(max, s, actions, s.creator.x)
  {
    SeatKeptIff(max, s, actions, s', s.creator.x);
  }

  // ---- victims, one by one and in a list ----

  function Rest(after: After): seq<SessionId> {
    if after.ForExpiry? then after.rest else []
  }

  /** The sessions still to be evicted, once chosen. */
  function Waiting(creator: Creator): seq<SessionId> {
    match creator
    case Taking(victim, after) => [victim] + Rest(after)
    case Killing(_, _, _, after) => Rest(after)
    case Burying(_, _, after) => Rest(after)
    case Writing(_, _, after) => Rest(after)
    case Expiring(rest) => rest
    case _ => []
  }

  predicate NotBetween(victim: SessionId, after: After) {
    victim !in Rest(after)
  }

  /** The sessions to be evicted are listed once, and the one being evicted no more. */
  ghost predicate Listed(creator: Creator) {
    && (forall i, j :: 0 <= i < j < |Waiting(creator)| ==> Waiting(creator)[i] != Waiting(creator)[j])
    && (creator.Killing? || creator.Burying? || creator.Writing? ==> NotBetween(creator.victim, creator.after))
  }

  lemma WaitingStep(max: nat, s: State, a: Action, s': State, x: SessionId)
    requires Apply(max, s, a) == Some(s') && SessionSafety.HoldsLock(a) && Listed(s.creator)
    requires x in Waiting(s.creator) && x in Waiting(s'.creator)
    ensures a.Evict? || a == Sweep(ExpireNext)
    ensures a == Sweep(ExpireNext) ==> s'.catalog == s.catalog && Waiting(s'.creator) == Waiting(s.creator)
  {
    if a == Sweep(ExpireNext) {
      var rest := s.creator.rest;
      assert rest == [rest[0]] + rest[1..];
    }
  }

  lemma EvictionSpares(s: State, m: EvictionMove, s': State, x: SessionId)
    requires EvictionStep(s, m) == Some(s') && Listed(s.creator)
    requires x in Waiting(s.creator) && x in Waiting(s'.creator) && Takeable(s.catalog, x)
    ensures Takeable(s'.catalog, x) && Listed(s'.creator)
  {
    if s.creator.Taking? {
      var all := Waiting(s.creator);
      assert all[0] == s.creator.victim && all[1..] == Rest(s.creator.after);
      assert forall i :: 0 <= i < |Rest(s.creator.after)| ==> Rest(s.creator.after)[i] == all[i + 1];
    }
  }

  /** A session chosen for eviction stays evictable through a step, whoever takes it, exactly unless a turn unseats it. */
  lemma ChosenLostIff(max: nat, s: State, a: Action, s': State, x: SessionId)
    requires Apply(max, s, a) == Some(s') && Listed(s.creator)
    requires x in Waiting(s.creator) && x in Waiting(s'.creator) && Takeable(s.catalog, x)
    ensures Listed(s'.creator) && (Takeable(s'.catalog, x) <==> !Unseats(s, a, x))
  {
    if !SessionSafety.HoldsLock(a) {
      SeatLostIff(max, s, a, s', x);
    } else {
      WaitingStep(max, s, a, s', x);
      if a.Evict? {
        EvictionSpares(s, a.eviction, s', x);
      }
    }
  }

  ghost predicate WaitsThroughout(max: nat, s: State, actions: seq<Action>, x: SessionId)
    decreases |actions|
  {
    && x in Waiting(s.creator)
    && (actions != [] && Apply(max, s, actions[0]).Some? ==>
          WaitsThroughout(max, Apply(max, s, actions[0]).value, actions[1..], x))
  }

  lemma NotTakeableStays(max: nat, s: State, a: Action, s': State, x: SessionId)
    requires Apply(max, s, a) == Some(s') && Listed(s.creator)
    requires x in Waiting(s.creator) && x in Waiting(s'.creator) && x in s.catalog && s.catalog[x].pane.None?
    ensures Listed(s'.creator) && x in s'.catalog && s'.catalog[x].pane.None?
  {
    if !SessionSafety.HoldsLock(a) {
      SeatLostIff(max, s, a, s', x);
    } else {
      WaitingStep(max, s, a, s', x);
      if a.Evict? {
        EvictionKeepsLost(s, a.eviction, s', x);
      }
    }
  }

  lemma EvictionKeepsLost(s: State, m: EvictionMove, s': State, x: SessionId)
    requires EvictionStep(s, m) == Some(s') && Listed(s.creator)
    requires x in Waiting(s.creator) && x in Waiting(s'.creator) && x in s.catalog && s.catalog[x].pane.None?
    ensures Listed(s'.creator) && x in s'.catalog && s'.catalog[x].pane.None?
  {
    if s.creator.Taking? {
      var all := Waiting(s.creator);
      assert all[0] == s.creator.victim && all[1..] == Rest(s.creator.after);
      assert forall i :: 0 <= i < |Rest(s.creator.after)| ==> Rest(s.creator.after)[i] == all[i + 1];
    }
  }

  lemma {:induction false} LostStaysLost(max: nat, s: State, actions: seq<Action>, s': State, x: SessionId)
    requires Execute(max, s, actions) == Some(s') && WaitsThroughout(max, s, actions, x) && Listed(s.creator)
    requires x in s.catalog && s.catalog[x].pane.None?
    ensures x in s'.catalog && s'.catalog[x].pane.None?
    decreases |actions|
  {
    if actions != [] {
      var next := Apply(max, s, actions[0]).value;
      NotTakeableStays(max, s, actions[0], next, x);
      LostStaysLost(max, next, actions[1..], s', x);
    }
  }

  lemma UnseatedIsLost(max: nat, s: State, a: Action, s': State, x: SessionId)
    requires Apply(max, s, a) == Some(s') && Unseats(s, a, x)
    ensures x in s'.catalog && s'.catalog[x].pane.None?
  {
    TurnSeats(s, a.t, a.turn, s', x);
  }

  /**
   From its choice to its turn, whether alone or in the list of expired sessions, and whatever other evictions come
   before it, a session stays evictable exactly when no turn unseats it; otherwise it has lost its pane.
   */
  lemma {:induction false} ChosenKeptIff(max: nat, s: State, actions: seq<Action>, s': State, x: SessionId)
    requires Execute(max, s, actions) == Some(s') && WaitsThroughout(max, s, actions, x) && Listed(s.creator)
    requires Takeable(s.catalog, x)
    ensures Takeable(s'.catalog, x) <==> NeverUnseats(max, s, actions, x)
    ensures x in s'.catalog && (!Takeable(s'.catalog, x) ==> s'.catalog[x].pane.None?)
    decreases |actions|
  {
    if actions != [] {
      var next := Apply(max, s, actions[0]).value;
      ChosenLostIff(max, s, actions[0], next, x);
      if Unseats(s, actions[0], x) {
        UnseatedIsLost(max, s, actions[0], next, x);
        LostStaysLost(max, next, actions[1..], s', x);
      } else {
        ChosenKeptIff(max, next, actions[1..], s', x);
      }
    }
  }

  // ---- runs that panic ----

  const ROOM := 1

  const STALE := FIRST_TURN.(phase := StaleKilling, permit := HeldByPrompt)

  /** The pane of the first prompt dies just after the lock holder has listed the panes, and the prompt fails. */
  lemma FailsMeanwhile(s: State) returns (s': State)
    requires Holds(ROOM, s, Session(Some(P1), None, Some(Claude), None, true, false, false, Some(0), 0, 0), K1)
    requires s.talk == Talk(map[0 := FIRST_TURN], map[], 1)
    ensures Holds(ROOM, s', Session(Some(P1), None, Some(Claude), None, true, false, false, None, 0, 0), K1)
    ensures s'.creator == s.creator && s'.talk.turns.Keys == {0} && s'.talk.turns[0] == STALE
  {
    s' := GoOutside(ROOM, EMPTY, s, PaneDies(P1));
    s' := TurnEnds(ROOM, EMPTY, s', 0, true);
  }

  /** The retry unseats the session. */
  lemma UnseatsMeanwhile(s: State) returns (s': State)
    requires Holds(ROOM, s, Session(Some(P1), None, Some(Claude), None, true, false, false, None, 0, 0), K1)
    requires s.talk.turns.Keys == {0} && s.talk.turns[0] == STALE
    ensures Holds(ROOM, s', Session(None, None, None, None, true, false, false, None, 0, 0), K1)
    ensures s'.creator == s.creator
  {
    s' := GoTurn(ROOM, EMPTY, s, 0, KillStale(false));
    s' := GoTurn(ROOM, EMPTY, s', 0, UnseatStale);
  }

  /** A request has listed the panes while the first prompt was under way. */
  lemma Lists(request: Request, creator: Creator) returns (s: State)
    requires (request == AskNew(false) && creator == Counting(Fresh(false)))
          || (request == AskDelete(X) && creator == Looking(X, ToDelete))
          || (request == AskPrompt(X, false) && creator == Looking(X, ToPrompt(false)))
    ensures Holds(ROOM, s, Session(Some(P1), None, Some(Claude), None, true, false, false, Some(0), 0, 0), K1)
    ensures s.creator == creator && s.talk == Talk(map[0 := FIRST_TURN], map[], 1)
  {
    s := Begun(ROOM);
    var panes: Snapshot := map[P1 := None];
    assert Prune(s.catalog, panes) == s.catalog;
    s := GoAsk(ROOM, EMPTY, s, request);
    s := GoReside(ROOM, EMPTY, s, PrunePanes(panes));
  }

  /** A new session at the limit chooses as victim the session whose retry is about to unseat it. */
  lemma EvictionCanPanic() returns (actions: seq<Action>, s': State)
    ensures Initial(ROOM, EMPTY) && Execute(ROOM, EMPTY, actions) == Some(s') && EvictionPanics(s')
  {
    var s := Lists(AskNew(false), Counting(Fresh(false)));
    s := FailsMeanwhile(s);
    s := Chooses(s);
    s' := UnseatsMeanwhile(s);
    assert Residents(EMPTY.catalog) == {};
    actions :| Execute(ROOM, EMPTY, actions) == Some(s');
  }

  lemma Chooses(s: State) returns (s': State)
    requires Holds(ROOM, s, Session(Some(P1), None, Some(Claude), None, true, false, false, None, 0, 0), K1)
    requires s.creator == Counting(Fresh(false))
    ensures Holds(ROOM, s', Session(Some(P1), None, Some(Claude), None, true, false, false, None, 0, 0), K1)
    ensures s'.creator == Taking(X, ForRoom(Fresh(false))) && s'.talk == s.talk
  {
    assert Residents(s.catalog) == {X};
    s' := GoReside(ROOM, EMPTY, s, CountPanes);
    s' := GoEvict(ROOM, EMPTY, s', ChooseVictim(X));
  }

  /** A prompt or a delete finds the session in its pane just before the retry unseats it. */
  lemma SeatedTooEarly(request: Request, purpose: Purpose) returns (s: State)
    requires (request == AskDelete(X) && purpose == ToDelete) || (request == AskPrompt(X, false) && purpose == ToPrompt(false))
    ensures Holds(ROOM, s, Session(None, None, None, None, true, false, false, None, 0, 0), K1)
    ensures s.creator == SessionProtocol.Seated(X, purpose)
  {
    s := Lists(request, Looking(X, purpose));
    s := FailsMeanwhile(s);
    s := GoReside(ROOM, EMPTY, s, LookUp);
    s := UnseatsMeanwhile(s);
  }

  lemma PromptCanPanic() returns (actions: seq<Action>, s': State)
    ensures Initial(ROOM, EMPTY) && Execute(ROOM, EMPTY, actions) == Some(s') && PromptPanics(s')
  {
    s' := SeatedTooEarly(AskPrompt(X, false), ToPrompt(false));
    assert Residents(EMPTY.catalog) == {};
    actions :| Execute(ROOM, EMPTY, actions) == Some(s');
  }

  lemma DeleteCanPanic() returns (actions: seq<Action>, s': State)
    ensures Initial(ROOM, EMPTY) && Execute(ROOM, EMPTY, actions) == Some(s') && DeletePanics(s')
  {
    s' := SeatedTooEarly(AskDelete(X), ToDelete);
    assert Residents(EMPTY.catalog) == {};
    actions :| Execute(ROOM, EMPTY, actions) == Some(s');
  }
}
