/**
 Turns and steers over every run: a session's active turn is ended by that turn
 only, a turn has at most one steer in flight, and none of its steers is left when it
 is cleared or answered.
 */
module TurnProtocol {
  import opened Wrappers
  import opened SessionCatalog
  import opened SessionProtocol

  predicate Active(phase: Phase) {
    phase.Running? || phase.Draining? || phase.Holding?
  }

  predicate Steerable(phase: Phase) {
    phase.Running? || phase.Draining?
  }

  /** Each session's active turn is a turn of that session that has not been cleared. */
  ghost predicate TurnsMatch(c: Catalog, talk: Talk) {
    forall x :: x in c && c[x].turn.Some? ==>
      && c[x].turn.value in talk.turns
      && talk.turns[c[x].turn.value].x == x
      && Active(talk.turns[c[x].turn.value].phase)
  }

  ghost predicate PermitsMatch(talk: Talk) {
    && (forall t :: t in talk.turns ==>
          && t < talk.nextTurn
          && (talk.turns[t].permit.HeldByPrompt? <==> !Steerable(talk.turns[t].phase))
          && (talk.turns[t].permit.HeldBySteer? ==>
                talk.turns[t].permit.steer in talk.steers && talk.steers[talk.turns[t].permit.steer] == t))
    && (forall k :: k in talk.steers ==>
          talk.steers[k] in talk.turns && talk.turns[talk.steers[k]].permit == HeldBySteer(k))
  }

  ghost predicate TalkOk(s: State) {
    TurnsMatch(s.catalog, s.talk) && PermitsMatch(s.talk)
  }

  /** A catalog change that begins and ends no turn. */
  ghost predicate SameTurns(c: Catalog, d: Catalog) {
    && (forall x :: x in d && d[x].turn.Some? ==> x in c && c[x].turn == d[x].turn)
    && (forall x :: x in c && c[x].turn.Some? ==> x in d && c[x].turn == d[x].turn)
  }

  lemma ResidencyTurns(max: nat, s: State, m: ResidencyMove, s': State)
    requires ResidencyStep(max, s, m) == Some(s')
    ensures s'.talk == s.talk && SameTurns(s.catalog, s'.catalog)
  {
  }

  lemma EvictionTurns(s: State, m: EvictionMove, s': State)
    requires EvictionStep(s, m) == Some(s')
    ensures s'.talk == s.talk && SameTurns(s.catalog, s'.catalog)
  {
  }

  lemma LaunchTurns(s: State, m: LaunchMove, s': State)
    requires LaunchStep(s, m) == Some(s')
    ensures s'.talk == s.talk && SameTurns(s.catalog, s'.catalog)
  {
  }

  lemma SweepTurns(max: nat, s: State, m: SweepMove, s': State)
    requires SweepStep(max, s, m) == Some(s')
    ensures s'.talk == s.talk && SameTurns(s.catalog, s'.catalog)
  {
  }

  lemma TurnTurns(s: State, t: TurnId, m: TurnMove, s': State)
    requires t in s.talk.turns && m != Clear && TurnStep(s, t, m) == Some(s')
    ensures SameTurns(s.catalog, s'.catalog)
  {
  }

  /** The lock holder begins and ends turns only in its last step. */
  predicate KeepsTalk(a: Action) {
    a.Ask? || a.Reside? || a.Evict? || a.Launch? || a.Sweep?
  }

  lemma HolderTurns(max: nat, s: State, a: Action, s': State)
    requires KeepsTalk(a) && Apply(max, s, a) == Some(s')
    ensures s'.talk == s.talk && SameTurns(s.catalog, s'.catalog)
  {
    match a
    case Reside(m) => ResidencyTurns(max, s, m, s');
    case Evict(m) => EvictionTurns(s, m, s');
    case Launch(m) => LaunchTurns(s, m, s');
    case Sweep(m) => SweepTurns(max, s, m, s');
    case _ =>
  }

  lemma ErrandTalk(s: State, m: ErrandMove, s': State)
    requires TalkOk(s) && ErrandStep(s, m) == Some(s')
    ensures TalkOk(s')
  {
  }

  lemma ClearTalk(s: State, t: TurnId, s': State)
    requires TalkOk(s) && t in s.talk.turns && ClearStep(s, t) == Some(s')
    ensures TalkOk(s')
  {
  }

  lemma TurnTalk(s: State, t: TurnId, m: TurnMove, s': State)
    requires TalkOk(s) && t in s.talk.turns && TurnStep(s, t, m) == Some(s')
    ensures TalkOk(s')
  {
    if m == Clear {
      ClearTalk(s, t, s');
    } else {
      TurnTurns(s, t, m, s');
      TurnMatches(s, t, m, s');
      TurnPermits(s, t, m, s');
    }
  }

  lemma TurnMatches(s: State, t: TurnId, m: TurnMove, s': State)
    requires TalkOk(s) && t in s.talk.turns && m != Clear && TurnStep(s, t, m) == Some(s')
    requires SameTurns(s.catalog, s'.catalog)
    ensures TurnsMatch(s'.catalog, s'.talk)
  {
    OthersStay(s, t, m, s');
    forall x | x in s'.catalog && s'.catalog[x].turn.Some?
      ensures
        var u := s'.catalog[x].turn.value;
        u in s'.talk.turns && s'.talk.turns[u].x == x && Active(s'.talk.turns[u].phase)
    {
      assert s.catalog[x].turn == s'.catalog[x].turn;
    }
  }

  lemma OthersStay(s: State, t: TurnId, m: TurnMove, s': State)
    requires t in s.talk.turns && m != Clear && TurnStep(s, t, m) == Some(s')
    ensures forall u :: u in s.talk.turns && u != t ==> u in s'.talk.turns && s'.talk.turns[u] == s.talk.turns[u]
    ensures Active(s.talk.turns[t].phase) ==>
              t in s'.talk.turns && Active(s'.talk.turns[t].phase) && s'.talk.turns[t].x == s.talk.turns[t].x
  {
  }

  lemma TurnPermits(s: State, t: TurnId, m: TurnMove, s': State)
    requires PermitsMatch(s.talk) && t in s.talk.turns && m != Clear && TurnStep(s, t, m) == Some(s')
    ensures PermitsMatch(s'.talk)
  {
    if Leaves(m) {
      LeavingPermits(s, t, m, s');
    }
  }

  predicate Leaves(m: TurnMove) {
    m.Reply? || m.WriteStaleGrave?
  }

  lemma LeavingPermits(s: State, t: TurnId, m: TurnMove, s': State)
    requires PermitsMatch(s.talk) && t in s.talk.turns && Leaves(m) && TurnStep(s, t, m) == Some(s')
    ensures PermitsMatch(s'.talk)
  {
  }

  lemma OutsideTalk(s: State, m: OutsideMove, s': State)
    requires TalkOk(s) && OutsideStep(s, m) == Some(s')
    ensures TalkOk(s')
  {
  }

  lemma StepTalk(max: nat, s: State, a: Action, s': State)
    requires TalkOk(s) && Apply(max, s, a) == Some(s')
    ensures TalkOk(s')
  {
    match a
    case Run(m) => ErrandTalk(s, m, s');
    case Play(t, m) => TurnTalk(s, t, m, s');
    case Happen(m) => OutsideTalk(s, m, s');
    case _ => HolderTurns(max, s, a, s');
  }

  lemma {:induction false} RunTalk(max: nat, s: State, actions: seq<Action>, s': State)
    requires TalkOk(s) && Execute(max, s, actions) == Some(s')
    ensures TalkOk(s')
    decreases |actions|
  {
    if actions != [] {
      var next := Apply(max, s, actions[0]).value;
      StepTalk(max, s, actions[0], next);
      RunTalk(max, next, actions[1..], s');
    }
  }

  /** In every run two steers in flight belong to different turns, and neither to a turn that has been cleared or is being answered. */
  lemma SteersAreSerialized(max: nat, s: State, actions: seq<Action>, s': State, k: SteerId)
    requires Initial(max, s) && Execute(max, s, actions) == Some(s') && k in s'.talk.steers
    ensures s'.talk.steers[k] in s'.talk.turns && Steerable(s'.talk.turns[s'.talk.steers[k]].phase)
    ensures forall other :: other in s'.talk.steers && s'.talk.steers[other] == s'.talk.steers[k] ==> other == k
  {
    RunTalk(max, s, actions, s');
  }

  /** A turn is cleared or answered only when no steer holds its permit. */
  lemma NoSteerAtReply(max: nat, s: State, actions: seq<Action>, s': State, t: TurnId, m: TurnMove)
    requires Initial(max, s) && Execute(max, s, actions) == Some(s')
    requires m == Clear || m == Reply
    requires t in s'.talk.turns && TurnStep(s', t, m).Some?
    ensures forall k :: k in s'.talk.steers ==> s'.talk.steers[k] != t
  {
    RunTalk(max, s, actions, s');
  }

  // ---- one active turn per session ----

  ghost predicate KeepsTurnOf(c: Catalog, d: Catalog, x: SessionId) {
    x in c && c[x].turn.Some? ==> x in d && d[x].turn == c[x].turn
  }

  lemma ErrandKeepsTurn(s: State, m: ErrandMove, s': State, x: SessionId)
    requires ErrandStep(s, m) == Some(s') && m != RemoveSession
    ensures KeepsTurnOf(s.catalog, s'.catalog, x)
  {
  }

  lemma ClearKeepsTurn(s: State, t: TurnId, s': State, x: SessionId)
    requires t in s.talk.turns && ClearStep(s, t) == Some(s')
    requires x in s.catalog && s.catalog[x].turn != Some(t)
    ensures KeepsTurnOf(s.catalog, s'.catalog, x)
  {
  }

  lemma OutsideKeepsTurn(s: State, m: OutsideMove, s': State, x: SessionId)
    requires OutsideStep(s, m) == Some(s')
    ensures KeepsTurnOf(s.catalog, s'.catalog, x)
  {
  }

  /** A session's active turn ends only when that very turn clears it, or with the session. */
  lemma OnlyOwnTurnClears(max: nat, s: State, a: Action, s': State, x: SessionId)
    requires Apply(max, s, a) == Some(s') && a != Run(RemoveSession)
    requires x in s.catalog && s.catalog[x].turn.Some?
    ensures KeepsTurnOf(s.catalog, s'.catalog, x) || a == Play(s.catalog[x].turn.value, Clear)
  {
    match a
    case Run(m) => ErrandKeepsTurn(s, m, s', x);
    case Play(t, m) =>
      if m != Clear {
        TurnTurns(s, t, m, s');
      } else if s.catalog[x].turn != Some(t) {
        ClearKeepsTurn(s, t, s', x);
      }
    case Happen(m) => OutsideKeepsTurn(s, m, s', x);
    case _ => HolderTurns(max, s, a, s');
  }

  ghost predicate Owned(s: State) {
    forall t :: t in s.talk.turns && Active(s.talk.turns[t].phase) ==>
      var x := s.talk.turns[t].x;
      x in s.catalog && s.catalog[x].turn == Some(t)
  }

  /** A delete that removes a session whose turn is still active. */
  predicate DeletesMidTurn(s: State, a: Action) {
    && a == Run(RemoveSession) && s.creator.Removing?
    && s.creator.x in s.catalog && s.catalog[s.creator.x].turn.Some?
  }

  lemma ErrandOwned(s: State, m: ErrandMove, s': State)
    requires TalkOk(s) && Owned(s) && ErrandStep(s, m) == Some(s') && !DeletesMidTurn(s, Run(m))
    ensures Owned(s')
  {
  }

  lemma TurnOwned(s: State, t: TurnId, m: TurnMove, s': State)
    requires TalkOk(s) && Owned(s) && t in s.talk.turns && TurnStep(s, t, m) == Some(s')
    ensures Owned(s')
  {
    if m == Clear {
      ClearOwned(s, t, s');
    } else {
      TurnTurns(s, t, m, s');
      TurnPhases(s, t, m, s');
      OwnedStays(s, s');
    }
  }

  /** Every turn active afterwards was active before, for the same session. */
  ghost predicate FewerActive(before: Talk, after: Talk) {
    forall u :: u in after.turns && Active(after.turns[u].phase) ==>
      u in before.turns && Active(before.turns[u].phase) && after.turns[u].x == before.turns[u].x
  }

  lemma TurnPhases(s: State, t: TurnId, m: TurnMove, s': State)
    requires t in s.talk.turns && m != Clear && TurnStep(s, t, m) == Some(s')
    ensures FewerActive(s.talk, s'.talk)
  {
  }

  lemma OwnedStays(s: State, s': State)
    requires Owned(s) && SameTurns(s.catalog, s'.catalog) && FewerActive(s.talk, s'.talk)
    ensures Owned(s')
  {
    forall t | t in s'.talk.turns && Active(s'.talk.turns[t].phase)
      ensures s'.talk.turns[t].x in s'.catalog && s'.catalog[s'.talk.turns[t].x].turn == Some(t)
    {
      assert s.catalog[s.talk.turns[t].x].turn == Some(t);
    }
  }

  lemma ClearOwned(s: State, t: TurnId, s': State)
    requires TalkOk(s) && Owned(s) && t in s.talk.turns && ClearStep(s, t) == Some(s')
    ensures Owned(s')
  {
  }

  lemma OutsideOwned(s: State, m: OutsideMove, s': State)
    requires Owned(s) && OutsideStep(s, m) == Some(s')
    ensures Owned(s')
  {
  }

  lemma StepOwned(max: nat, s: State, a: Action, s': State)
    requires TalkOk(s) && Owned(s) && Apply(max, s, a) == Some(s') && !DeletesMidTurn(s, a)
    ensures Owned(s')
  {
    match a
    case Run(m) => ErrandOwned(s, m, s');
    case Play(t, m) => TurnOwned(s, t, m, s');
    case Happen(m) => OutsideOwned(s, m, s');
    case _ => HolderTurns(max, s, a, s');
  }

  lemma MidTurnDeleteOrphans(max: nat, s: State, a: Action, s': State)
    requires TalkOk(s) && DeletesMidTurn(s, a) && Apply(max, s, a) == Some(s')
    ensures !Owned(s')
  {
    var t := s.catalog[s.creator.x].turn.value;
    assert s'.talk.turns[t].x == s.creator.x && Active(s'.talk.turns[t].phase);
  }

  ghost predicate OwnedThroughout(max: nat, s: State, actions: seq<Action>)
    decreases |actions|
  {
    && Owned(s)
    && (actions != [] && Apply(max, s, actions[0]).Some? ==>
          OwnedThroughout(max, Apply(max, s, actions[0]).value, actions[1..]))
  }

  ghost predicate NoMidTurnDeletes(max: nat, s: State, actions: seq<Action>)
    decreases |actions|
  {
    actions != [] && Apply(max, s, actions[0]).Some? ==>
      !DeletesMidTurn(s, actions[0]) && NoMidTurnDeletes(max, Apply(max, s, actions[0]).value, actions[1..])
  }

  /** Every turn under way is its session's active turn throughout a run exactly when no session is deleted during its turn. */
  lemma {:induction false} OwnedIffNoMidTurnDeletes(max: nat, s: State, actions: seq<Action>)
    requires TalkOk(s) && Owned(s)
    ensures OwnedThroughout(max, s, actions) <==> NoMidTurnDeletes(max, s, actions)
    decreases |actions|
  {
    if actions != [] && Apply(max, s, actions[0]).Some? {
      var next := Apply(max, s, actions[0]).value;
      StepTalk(max, s, actions[0], next);
      if DeletesMidTurn(s, actions[0]) {
        MidTurnDeleteOrphans(max, s, actions[0], next);
      } else {
        StepOwned(max, s, actions[0], next);
        OwnedIffNoMidTurnDeletes(max, next, actions[1..]);
      }
    }
  }

  // ---- two turns of one session ----

  predicate Together(turn: Turn, other: Turn) {
    Active(turn.phase) && Active(other.phase) && turn.x == other.x
  }

  /** No two turns of one session are active. */
  ghost predicate OneEach(talk: Talk) {
    forall t, u :: t in talk.turns && u in talk.turns && Together(talk.turns[t], talk.turns[u]) ==> t == u
  }

  predicate HasActiveTurn(talk: Talk, x: SessionId) {
    exists t :: t in talk.turns && Active(talk.turns[t].phase) && talk.turns[t].x == x
  }

  /** A turn begins for a session whose catalog entry knows nothing of a turn of that id still under way. */
  predicate BeginsBeside(s: State, a: Action) {
    && a.Run? && a.errand.Begin? && s.creator.Seated? && s.creator.purpose.ToPrompt?
    && s.creator.x in s.catalog && s.catalog[s.creator.x].turn.None?
    && s.catalog[s.creator.x].pane.Some? && s.catalog[s.creator.x].backend.Some?
    && HasActiveTurn(s.talk, s.creator.x)
  }

  lemma BeginOneEachIff(s: State, m: ErrandMove, s': State)
    requires PermitsMatch(s.talk) && OneEach(s.talk) && ErrandStep(s, m) == Some(s')
    ensures OneEach(s'.talk) <==> !BeginsBeside(s, Run(m))
  {
    if BeginsBeside(s, Run(m)) {
      var x := s.creator.x;
      var t :| t in s.talk.turns && Active(s.talk.turns[t].phase) && s.talk.turns[t].x == x;
      var u := s.talk.nextTurn;
      assert s'.talk.turns[t] == s.talk.turns[t] && Together(s'.talk.turns[t], s'.talk.turns[u]);
    }
  }

  lemma FewerOneEach(before: Talk, after: Talk)
    requires OneEach(before) && FewerActive(before, after)
    ensures OneEach(after)
  {
  }

  lemma ClearPhases(s: State, t: TurnId, s': State)
    requires t in s.talk.turns && ClearStep(s, t) == Some(s')
    ensures FewerActive(s.talk, s'.talk)
  {
  }

  lemma OutsidePhases(s: State, m: OutsideMove, s': State)
    requires OutsideStep(s, m) == Some(s')
    ensures FewerActive(s.talk, s'.talk)
  {
  }

  /** Only the beginning of a turn beside another makes two turns of a session active. */
  lemma StepOneEachIff(max: nat, s: State, a: Action, s': State)
    requires PermitsMatch(s.talk) && OneEach(s.talk) && Apply(max, s, a) == Some(s')
    ensures OneEach(s'.talk) <==> !BeginsBeside(s, a)
  {
    match a
    case Run(m) => BeginOneEachIff(s, m, s');
    case Play(t, m) =>
      if m == Clear {
        ClearPhases(s, t, s');
      } else {
        TurnPhases(s, t, m, s');
      }
      FewerOneEach(s.talk, s'.talk);
    case Happen(m) =>
      OutsidePhases(s, m, s');
      FewerOneEach(s.talk, s'.talk);
    case _ => HolderTurns(max, s, a, s');
  }

  ghost predicate OneEachThroughout(max: nat, s: State, actions: seq<Action>)
    decreases |actions|
  {
    && OneEach(s.talk)
    && (actions != [] && Apply(max, s, actions[0]).Some? ==>
          OneEachThroughout(max, Apply(max, s, actions[0]).value, actions[1..]))
  }

  ghost predicate NeverBeginsBeside(max: nat, s: State, actions: seq<Action>)
    decreases |actions|
  {
    actions != [] && Apply(max, s, actions[0]).Some? ==>
      !BeginsBeside(s, actions[0]) && NeverBeginsBeside(max, Apply(max, s, actions[0]).value, actions[1..])
  }

  /** In a run two turns of one session are never active together exactly when none begins beside another. */
  lemma {:induction false} OneActiveTurnIff(max: nat, s: State, actions: seq<Action>)
    requires TalkOk(s) && OneEach(s.talk)
    ensures OneEachThroughout(max, s, actions) <==> NeverBeginsBeside(max, s, actions)
    decreases |actions|
  {
    if actions != [] && Apply(max, s, actions[0]).Some? {
      var next := Apply(max, s, actions[0]).value;
      StepTalk(max, s, actions[0], next);
      StepOneEachIff(max, s, actions[0], next);
      if OneEach(next.talk) {
        OneActiveTurnIff(max, next, actions[1..]);
      }
    }
  }

  // ---- sessions that come back ----

  /** A pane is adopted for an id that has left the catalog while a turn of it is still active. */
  predicate ReadoptsMidTurn(s: State, a: Action) {
    a.Sweep? && a.sweep.AdoptPane? && a.sweep.x !in s.catalog && HasActiveTurn(s.talk, a.sweep.x)
  }

  ghost predicate NeverReadoptsMidTurn(max: nat, s: State, actions: seq<Action>)
    decreases |actions|
  {
    actions != [] && Apply(max, s, actions[0]).Some? ==>
      !ReadoptsMidTurn(s, actions[0]) && NeverReadoptsMidTurn(max, Apply(max, s, actions[0]).value, actions[1..])
  }

  predicate OwnedIfPresent(c: Catalog, t: TurnId, turn: Turn) {
    Active(turn.phase) && turn.x in c ==> c[turn.x].turn == Some(t)
  }

  /** An active turn whose session is in the catalog is its active turn. */
  ghost predicate Present(s: State) {
    && (forall t :: t in s.talk.turns ==> OwnedIfPresent(s.catalog, t, s.talk.turns[t]))
    && (forall t :: t in s.talk.turns ==> s.talk.turns[t].x in s.world.home)
    && (forall x :: x in s.catalog ==> x in s.world.home)
  }

  ghost predicate KnownIds(s: State, s': State) {
    && (forall x :: x in s.world.home ==> x in s'.world.home)
    && (forall x :: x in s'.catalog ==> x in s'.world.home)
  }

  lemma StepKnownIds(max: nat, s: State, a: Action, s': State)
    requires (forall x :: x in s.catalog ==> x in s.world.home) && Apply(max, s, a) == Some(s')
    ensures KnownIds(s, s')
  {
    if a.Launch? {
      LaunchKnownIds(s, a.launch, s');
    } else if a.Sweep? {
      SweepKnownIds(max, s, a.sweep, s');
    } else if a.Play? {
      TurnSameIds(s, a.t, a.turn, s');
    }
  }

  lemma LaunchKnownIds(s: State, m: LaunchMove, s': State)
    requires (forall x :: x in s.catalog ==> x in s.world.home) && LaunchStep(s, m) == Some(s')
    ensures KnownIds(s, s')
  {
  }

  lemma SweepKnownIds(max: nat, s: State, m: SweepMove, s': State)
    requires (forall x :: x in s.catalog ==> x in s.world.home) && SweepStep(max, s, m) == Some(s')
    ensures KnownIds(s, s')
  {
  }

  lemma NewcomersHaveNoTurn(max: nat, s: State, a: Action, s': State, x: SessionId)
    requires Present(s) && KeepsTalk(a) && !ReadoptsMidTurn(s, a) && Apply(max, s, a) == Some(s')
    requires x in s'.catalog && x !in s.catalog
    ensures !HasActiveTurn(s.talk, x)
  {
  }

  lemma HolderPresent(max: nat, s: State, a: Action, s': State)
    requires Present(s) && KeepsTalk(a) && !ReadoptsMidTurn(s, a) && Apply(max, s, a) == Some(s')
    ensures Present(s')
  {
    HolderTurns(max, s, a, s');
    StepKnownIds(max, s, a, s');
    forall t | t in s'.talk.turns
      ensures OwnedIfPresent(s'.catalog, t, s'.talk.turns[t])
    {
      var x := s.talk.turns[t].x;
      if Active(s.talk.turns[t].phase) && x in s'.catalog {
        if x !in s.catalog {
          NewcomersHaveNoTurn(max, s, a, s', x);
        }
        assert OwnedIfPresent(s.catalog, t, s.talk.turns[t]);
      }
    }
  }

  lemma ErrandPresent(s: State, m: ErrandMove, s': State)
    requires PermitsMatch(s.talk) && Present(s) && ErrandStep(s, m) == Some(s')
    ensures Present(s') && !BeginsBeside(s, Run(m))
  {
    forall t | t in s'.talk.turns
      ensures OwnedIfPresent(s'.catalog, t, s'.talk.turns[t])
    {
      if t in s.talk.turns {
        assert OwnedIfPresent(s.catalog, t, s.talk.turns[t]);
      }
    }
  }

  lemma TurnSameIds(s: State, t: TurnId, m: TurnMove, s': State)
    requires t in s.talk.turns && TurnStep(s, t, m) == Some(s')
    ensures s'.world.home == s.world.home && s'.catalog.Keys == s.catalog.Keys
    ensures forall u :: u in s'.talk.turns ==> u in s.talk.turns && s'.talk.turns[u].x == s.talk.turns[u].x
  {
  }

  lemma TurnPresent(s: State, t: TurnId, m: TurnMove, s': State)
    requires Present(s) && t in s.talk.turns && TurnStep(s, t, m) == Some(s')
    ensures Present(s')
  {
    TurnSameIds(s, t, m, s');
    if m == Clear {
      ClearPresent(s, t, s');
    } else {
      TurnTurns(s, t, m, s');
      TurnPhases(s, t, m, s');
      forall u | u in s'.talk.turns
        ensures OwnedIfPresent(s'.catalog, u, s'.talk.turns[u])
      {
        assert OwnedIfPresent(s.catalog, u, s.talk.turns[u]);
      }
    }
  }

  lemma ClearPresent(s: State, t: TurnId, s': State)
    requires Present(s) && t in s.talk.turns && ClearStep(s, t) == Some(s')
    ensures forall u :: u in s'.talk.turns ==> OwnedIfPresent(s'.catalog, u, s'.talk.turns[u])
  {
    ClearPhases(s, t, s');
    forall u | u in s'.talk.turns
      ensures OwnedIfPresent(s'.catalog, u, s'.talk.turns[u])
    {
      assert OwnedIfPresent(s.catalog, u, s.talk.turns[u]);
    }
  }

  lemma OutsidePresent(s: State, m: OutsideMove, s': State)
    requires Present(s) && OutsideStep(s, m) == Some(s')
    ensures Present(s')
  {
    OutsidePhases(s, m, s');
    assert s'.world.home == s.world.home && s'.talk.turns.Keys == s.talk.turns.Keys;
    forall u | u in s'.talk.turns
      ensures OwnedIfPresent(s'.catalog, u, s'.talk.turns[u])
    {
      assert OwnedIfPresent(s.catalog, u, s.talk.turns[u]);
    }
  }

  lemma StepPresent(max: nat, s: State, a: Action, s': State)
    requires TalkOk(s) && Present(s) && !ReadoptsMidTurn(s, a) && Apply(max, s, a) == Some(s')
    ensures Present(s') && !BeginsBeside(s, a)
  {
    match a
    case Run(m) => ErrandPresent(s, m, s');
    case Play(t, m) => TurnPresent(s, t, m, s');
    case Happen(m) => OutsidePresent(s, m, s');
    case _ => HolderPresent(max, s, a, s');
  }

  lemma {:induction false} NoReadoptionBeginsAlone(max: nat, s: State, actions: seq<Action>)
    requires TalkOk(s) && Present(s) && NeverReadoptsMidTurn(max, s, actions)
    ensures NeverBeginsBeside(max, s, actions)
    decreases |actions|
  {
    if actions != [] && Apply(max, s, actions[0]).Some? {
      var next := Apply(max, s, actions[0]).value;
      StepTalk(max, s, actions[0], next);
      StepPresent(max, s, actions[0], next);
      NoReadoptionBeginsAlone(max, next, actions[1..]);
    }
  }

  lemma {:induction false} OneEachAtEnd(max: nat, s: State, actions: seq<Action>, s': State)
    requires OneEachThroughout(max, s, actions) && Execute(max, s, actions) == Some(s')
    ensures OneEach(s'.talk)
    decreases |actions|
  {
    if actions != [] {
      OneEachAtEnd(max, Apply(max, s, actions[0]).value, actions[1..], s');
    }
  }

  /**
   In every run, deletes during a turn included, two turns of one session are never active at the same time,
   as long as no pane is adopted for a deleted id while a turn of it is still active.
   */
  lemma OneActiveTurn(max: nat, s: State, actions: seq<Action>, s': State, t: TurnId, u: TurnId)
    requires Initial(max, s) && Execute(max, s, actions) == Some(s') && NeverReadoptsMidTurn(max, s, actions)
    requires t in s'.talk.turns && u in s'.talk.turns && s'.talk.turns[t].x == s'.talk.turns[u].x
    requires Active(s'.talk.turns[t].phase) && Active(s'.talk.turns[u].phase)
    ensures t == u
  {
    NoReadoptionBeginsAlone(max, s, actions);
    OneActiveTurnIff(max, s, actions);
    OneEachAtEnd(max, s, actions, s');
  }

  // ---- one answer for a turn ----

  lemma StepTurnsGone(max: nat, s: State, a: Action, s': State, t: TurnId)
    requires Apply(max, s, a) == Some(s') && t < s.talk.nextTurn && t !in s.talk.turns
    ensures t < s'.talk.nextTurn && t !in s'.talk.turns
  {
    if KeepsTalk(a) {
      HolderTurns(max, s, a, s');
    }
  }

  lemma {:induction false} GoneTurnsStay(max: nat, s: State, actions: seq<Action>, s': State, t: TurnId)
    requires Execute(max, s, actions) == Some(s') && t < s.talk.nextTurn && t !in s.talk.turns
    ensures t !in s'.talk.turns
    decreases |actions|
  {
    if actions != [] {
      var next := Apply(max, s, actions[0]).value;
      StepTurnsGone(max, s, actions[0], next, t);
      GoneTurnsStay(max, next, actions[1..], s', t);
    }
  }

  /** Once a turn is answered, or retried as another, nothing more comes of it. */
  lemma AnsweredOnce(max: nat, s: State, t: TurnId, m: TurnMove, s': State, actions: seq<Action>, s'': State)
    requires TalkOk(s) && (m == Reply || m.WriteStaleGrave?)
    requires Apply(max, s, Play(t, m)) == Some(s') && Execute(max, s', actions) == Some(s'')
    ensures t in s.talk.turns && t !in s''.talk.turns
  {
    StepTalk(max, s, Play(t, m), s');
    GoneTurnsStay(max, s', actions, s'', t);
  }
}
