/**
 How long a session is remembered: the retention sweep drops what has neither pane nor turn
 and was last touched before its cutoff, so work on a session keeps it until a later cutoff.
 */
module Retention {
  import opened Wrappers
  import opened SessionCatalog
  import opened SessionProtocol
  import opened Runs

  /** The sweep keeps a session, as it is, exactly when it has a pane, a turn, or was touched at the cutoff or after. */
  lemma SweepKeepsExactly(max: nat, s: State, cutoff: Option<nat>, s': State, x: SessionId)
    requires Apply(max, s, Sweep(ForgetOld(cutoff))) == Some(s')
    ensures x in s'.catalog <==>
              x in s.catalog
              && (cutoff.Some? ==>
                    s.catalog[x].pane.Some? || s.catalog[x].turn.Some? || cutoff.value <= s.catalog[x].lastTouched)
    ensures x in s'.catalog ==> s'.catalog[x] == s.catalog[x]
  {
  }

  /** The session is prompted, steered or resumed at this time. */
  predicate Works(s: State, a: Action, x: SessionId, now: nat) {
    match a
    case Run(FinishResume(_, at)) => at == now && s.creator == SessionProtocol.Seated(x, ToResume)
    case Run(Begin(_, at)) =>
      && at == now && s.creator.Seated? && s.creator.x == x && s.creator.purpose.ToPrompt?
      && x in s.catalog && s.catalog[x].turn.None? && s.catalog[x].pane.Some? && s.catalog[x].backend.Some?
    case Happen(StartSteer(_, y, _, at)) => at == now && y == x
    case _ => false
  }

  /** Its pane is adopted, as last active at this time. */
  predicate Adopts(a: Action, x: SessionId, touched: nat) {
    a.Sweep? && a.sweep.AdoptPane? && a.sweep.x == x && a.sweep.touched == touched
  }

  predicate TouchedSince(s: State, x: SessionId, since: nat) {
    x in s.catalog && s.catalog[x].lastTouched >= since
  }

  /** It is worked on, or its pane adopted, as of an earlier time. */
  ghost predicate DatesBack(s: State, a: Action, x: SessionId, since: nat) {
    exists at: nat :: at < since && (Works(s, a, x, at) || Adopts(a, x, at))
  }

  /** It is deleted, or swept with a later cutoff. */
  predicate MayForget(s: State, a: Action, x: SessionId, since: nat) {
    || (a == Run(RemoveSession) && s.creator == Removing(x))
    || (a.Sweep? && a.sweep.ForgetOld? && a.sweep.cutoff.Some? && a.sweep.cutoff.value > since)
  }

  /** Work on a known session stamps it with the time. */
  lemma WorkStamps(max: nat, s: State, a: Action, s': State, x: SessionId, now: nat)
    requires Apply(max, s, a) == Some(s') && Works(s, a, x, now) && x in s.catalog
    ensures x in s'.catalog && s'.catalog[x].lastTouched == now
  {
  }

  lemma ErrandTouches(s: State, m: ErrandMove, s': State, x: SessionId, since: nat)
    requires ErrandStep(s, m) == Some(s') && TouchedSince(s, x, since) && !MayForget(s, Run(m), x, since)
    ensures TouchedSince(s', x, since) <==> !DatesBack(s, Run(m), x, since)
  {
    var at := if m.Begin? || m.FinishResume? then m.now else since;
    assert Works(s, Run(m), x, at) && at < since ==> DatesBack(s, Run(m), x, since);
  }

  lemma SweepTouches(max: nat, s: State, m: SweepMove, s': State, x: SessionId, since: nat)
    requires SweepStep(max, s, m) == Some(s') && TouchedSince(s, x, since) && !MayForget(s, Sweep(m), x, since)
    ensures TouchedSince(s', x, since) <==> !DatesBack(s, Sweep(m), x, since)
  {
    var at := if m.AdoptPane? then m.touched else since;
    assert Adopts(Sweep(m), x, at) && at < since ==> DatesBack(s, Sweep(m), x, since);
  }

  lemma OutsideTouches(s: State, m: OutsideMove, s': State, x: SessionId, since: nat)
    requires OutsideStep(s, m) == Some(s') && TouchedSince(s, x, since)
    ensures TouchedSince(s', x, since) <==> !DatesBack(s, Happen(m), x, since)
  {
    var at := if m.StartSteer? then m.now else since;
    assert Works(s, Happen(m), x, at) && at < since ==> DatesBack(s, Happen(m), x, since);
  }

  lemma TurnTouches(s: State, t: TurnId, m: TurnMove, s': State, x: SessionId, since: nat)
    requires t in s.talk.turns && TurnStep(s, t, m) == Some(s') && TouchedSince(s, x, since)
    ensures TouchedSince(s', x, since)
  {
  }

  lemma EvictionTouches(s: State, m: EvictionMove, s': State, x: SessionId, since: nat)
    requires EvictionStep(s, m) == Some(s') && TouchedSince(s, x, since)
    ensures TouchedSince(s', x, since)
  {
  }

  lemma LaunchTouches(s: State, m: LaunchMove, s': State, x: SessionId, since: nat)
    requires LaunchStep(s, m) == Some(s') && TouchedSince(s, x, since)
    ensures TouchedSince(s', x, since)
  {
  }

  lemma StepTouches(max: nat, s: State, a: Action, s': State, x: SessionId, since: nat)
    requires Apply(max, s, a) == Some(s') && TouchedSince(s, x, since) && !MayForget(s, a, x, since)
    ensures TouchedSince(s', x, since) <==> !DatesBack(s, a, x, since)
  {
    match a
    case Run(m) => ErrandTouches(s, m, s', x, since);
    case Sweep(m) => SweepTouches(max, s, m, s', x, since);
    case Happen(m) => OutsideTouches(s, m, s', x, since);
    case Play(t, m) => TurnTouches(s, t, m, s', x, since);
    case Evict(m) => EvictionTouches(s, m, s', x, since);
    case Launch(m) => LaunchTouches(s, m, s', x, since);
    case _ =>
  }

  ghost predicate TouchedThroughout(max: nat, s: State, actions: seq<Action>, x: SessionId, since: nat)
    decreases |actions|
  {
    && TouchedSince(s, x, since)
    && (actions != [] && Apply(max, s, actions[0]).Some? ==>
          TouchedThroughout(max, Apply(max, s, actions[0]).value, actions[1..], x, since))
  }

  ghost predicate NeverDatesBack(max: nat, s: State, actions: seq<Action>, x: SessionId, since: nat)
    decreases |actions|
  {
    actions != [] && Apply(max, s, actions[0]).Some? ==>
      && !DatesBack(s, actions[0], x, since)
      && NeverDatesBack(max, Apply(max, s, actions[0]).value, actions[1..], x, since)
  }

  ghost predicate NeverMayForget(max: nat, s: State, actions: seq<Action>, x: SessionId, since: nat)
    decreases |actions|
  {
    actions != [] && Apply(max, s, actions[0]).Some? ==>
      && !MayForget(s, actions[0], x, since)
      && NeverMayForget(max, Apply(max, s, actions[0]).value, actions[1..], x, since)
  }

  /** While a session is not deleted and every cutoff is no later, it stays touched since then exactly as long as nothing dates it back. */
  lemma {:induction false} TouchedIff(max: nat, s: State, actions: seq<Action>, x: SessionId, since: nat)
    requires TouchedSince(s, x, since) && NeverMayForget(max, s, actions, x, since)
    ensures TouchedThroughout(max, s, actions, x, since) <==> NeverDatesBack(max, s, actions, x, since)
    decreases |actions|
  {
    if actions != [] && Apply(max, s, actions[0]).Some? {
      var next := Apply(max, s, actions[0]).value;
      StepTouches(max, s, actions[0], next, x, since);
      if TouchedSince(next, x, since) {
        TouchedIff(max, next, actions[1..], x, since);
      }
    }
  }

  lemma {:induction false} TouchedAtEnd(max: nat, s: State, actions: seq<Action>, s': State, x: SessionId, since: nat)
    requires TouchedThroughout(max, s, actions, x, since) && Execute(max, s, actions) == Some(s')
    ensures TouchedSince(s', x, since)
    decreases |actions|
  {
    if actions != [] {
      TouchedAtEnd(max, Apply(max, s, actions[0]).value, actions[1..], s', x, since);
    }
  }

  /**
   A session prompted, steered or resumed survives every run in which it is not deleted, no sweep has a later cutoff,
   and neither the clock nor the activity of a pane adopted for it goes back behind that time.
   */
  lemma WorkedOnSurvives(max: nat, s: State, a: Action, s': State, now: nat, actions: seq<Action>, s'': State, x: SessionId)
    requires Apply(max, s, a) == Some(s') && Works(s, a, x, now) && x in s.catalog
    requires Execute(max, s', actions) == Some(s'')
    requires NeverMayForget(max, s', actions, x, now) && NeverDatesBack(max, s', actions, x, now)
    ensures x in s''.catalog && s''.catalog[x].lastTouched >= now
  {
    WorkStamps(max, s, a, s', x, now);
    TouchedIff(max, s', actions, x, now);
    TouchedAtEnd(max, s', actions, s'', x, now);
  }

  // ---- a pane that dates its session back ----

  const P2 := PaneId(2)
  const MAX := 2

  /** Some run leads on without a delete of the session or a cutoff after 100. */
  ghost predicate Leads(s: State, s': State) {
    exists actions :: Execute(MAX, s, actions) == Some(s') && NeverMayForget(MAX, s, actions, X, 100)
  }

  lemma {:induction false} LeadsOn(s: State, actions: seq<Action>, m: State, a: Action, s': State)
    requires Execute(MAX, s, actions) == Some(m) && NeverMayForget(MAX, s, actions, X, 100)
    requires Apply(MAX, m, a) == Some(s') && !MayForget(m, a, X, 100)
    ensures Execute(MAX, s, actions + [a]) == Some(s') && NeverMayForget(MAX, s, actions + [a], X, 100)
    decreases |actions|
  {
    if actions == [] {
      assert [a][1..] == [];
    } else {
      assert (actions + [a])[1..] == actions[1..] + [a];
      LeadsOn(Apply(MAX, s, actions[0]).value, actions[1..], m, a, s');
    }
  }

  lemma GoOn(start: State, s: State, a: Action) returns (s': State)
    requires Leads(start, s) && Apply(MAX, s, a).Some? && !MayForget(s, a, X, 100)
    ensures Leads(start, s') && Apply(MAX, s, a) == Some(s')
  {
    s' := Apply(MAX, s, a).value;
    var actions :| Execute(MAX, start, actions) == Some(s) && NeverMayForget(MAX, start, actions, X, 100);
    LeadsOn(start, actions, s, a, s');
  }

  lemma GoOnOutside(start: State, s: State, m: OutsideMove) returns (s': State)
    requires Leads(start, s) && OutsideStep(s, m).Some?
    ensures Leads(start, s') && OutsideStep(s, m) == Some(s')
  {
    s' := GoOn(start, s, Happen(m));
  }

  lemma GoOnTurn(start: State, s: State, m: TurnMove) returns (s': State)
    requires Leads(start, s) && 0 in s.talk.turns && TurnStep(s, 0, m).Some?
    ensures Leads(start, s') && TurnStep(s, 0, m) == Some(s')
  {
    s' := GoOn(start, s, Play(0, m));
  }

  lemma GoOnSweep(start: State, s: State, m: SweepMove) returns (s': State)
    requires Leads(start, s) && SweepStep(MAX, s, m).Some? && (m.ForgetOld? ==> m.cutoff == Some(80))
    ensures Leads(start, s') && SweepStep(MAX, s, m) == Some(s')
  {
    s' := GoOn(start, s, Sweep(m));
  }

  /** The session is known, and in its first conversation. */
  ghost predicate Knows(start: State, s: State, session: Session) {
    Leads(start, s) && s.catalog == map[X := session] && X in s.world.home && s.world.home[X] == K1
  }

  const STEERED := Session(Some(P1), None, Some(Claude), None, true, false, false, Some(0), 0, 100)

  /** The first prompt is steered at 100, and the steer ends. */
  lemma Steered() returns (before: seq<Action>, m: State, start: State, s: State)
    ensures Execute(MAX, EMPTY, before) == Some(m) && Apply(MAX, m, Happen(StartSteer(0, X, 0, 100))) == Some(start)
    ensures start.catalog == map[X := STEERED]
    ensures Knows(start, s, STEERED)
    ensures s.creator == Free && s.talk.turns.Keys == {0} && s.talk.turns[0] == FIRST_TURN
    ensures s.world.conv == map[P1 := K1] && s.world.live == {P1}
  {
    m := Begun(MAX);
    before :| Execute(MAX, EMPTY, before) == Some(m);
    start := Apply(MAX, m, Happen(StartSteer(0, X, 0, 100))).value;
    assert Execute(MAX, start, []) == Some(start);
    s := GoOnOutside(start, start, FinishSteer(0));
  }

  const IDLE := STEERED.(turn := None)

  /** Its turn ends, and its pane. */
  lemma Ends(start: State, s: State) returns (s': State)
    requires Knows(start, s, STEERED) && s.creator == Free && s.talk.turns.Keys == {0} && s.talk.turns[0] == FIRST_TURN
    requires s.world.conv == map[P1 := K1] && s.world.live == {P1}
    ensures Knows(start, s', IDLE) && s'.creator == Free && s'.world.conv == map[P1 := K1] && s'.world.live == {}
  {
    s' := GoOnTurn(start, s, End(false));
    s' := GoOnTurn(start, s', TakePermit);
    s' := GoOnTurn(start, s', Clear);
    s' := GoOnOutside(start, s', PaneDies(P1));
  }

  /** A pane of the session appears, and the periodic sweep begins. */
  lemma Appears(start: State, s: State) returns (s': State)
    requires Knows(start, s, IDLE) && s.creator == Free && s.world.conv == map[P1 := K1] && s.world.live == {}
    ensures Knows(start, s', IDLE) && s'.creator == Reconciling
    ensures s'.world.conv == map[P1 := K1, P2 := K1] && s'.world.live == {P2}
    ensures P2 in s'.world.yard.named && P2 in s'.world.yard.tags && s'.world.yard.tags[P2] == X
  {
    s' := GoOnOutside(start, s, PaneAppears(P2, K1, Some(X)));
    s' := GoOn(start, s', Ask(AskReconcile));
  }

  /** The sweep finds the session without a pane, and the pane without a session. */
  lemma Scans(start: State, s: State) returns (s': State)
    requires Knows(start, s, IDLE) && s.creator == Reconciling
    requires s.world.conv == map[P1 := K1, P2 := K1] && s.world.live == {P2}
    ensures Knows(start, s', IDLE.(pane := None, backend := None)) && s'.creator == Adopting({P2}) && s'.world == s.world
  {
    var panes: Snapshot := map[P2 := None];
    assert Prune(s.catalog, panes) == map[X := IDLE.(pane := None, backend := None)];
    s' := GoOn(start, s, Reside(PrunePanes(panes)));
    assert panes.Keys == {P2} && ResidentPanes(s'.catalog) == {};
    s' := GoOnSweep(start, s', ScanPanes);
    assert {P2} - {} == {P2};
  }

  const OLD := Session(Some(P2), None, Some(Claude), Some(K1), true, false, false, None, 50, 50)

  /** It adopts the pane, last active at 50, and ends with a cutoff of 80. */
  lemma DatesBackTo50(start: State, s: State) returns (s': State)
    requires Knows(start, s, IDLE.(pane := None, backend := None)) && s.creator == Adopting({P2})
    requires s.world.conv == map[P1 := K1, P2 := K1]
    requires P2 in s.world.yard.named && P2 in s.world.yard.tags && s.world.yard.tags[P2] == X
    ensures Knows(start, s', OLD) && s'.creator == Free && s'.world.conv == map[P1 := K1, P2 := K1]
  {
    s' := GoOnSweep(start, s, AdoptPane(X, P2, Claude, 50));
    s' := GoOnSweep(start, s', FinishAdoption([]));
    s' := GoOnSweep(start, s', ForgetOld(Some(80)));
    assert Residents(s'.catalog) == {X};
    s' := GoOnSweep(start, s', CheckTrim);
  }

  /** That pane ends too, and the next sweep begins. */
  lemma Bereaves(start: State, s: State) returns (s': State)
    requires Knows(start, s, OLD) && s.creator == Free && s.world.conv == map[P1 := K1, P2 := K1]
    ensures Knows(start, s', OLD) && s'.creator == Reconciling && P2 !in s'.world.live
  {
    s' := GoOnOutside(start, s, PaneDies(P2));
    s' := GoOn(start, s', Ask(AskReconcile));
  }

  /** It forgets the session. */
  lemma Forgets(start: State, s: State) returns (s': State)
    requires Knows(start, s, OLD) && s.creator == Reconciling && P2 !in s.world.live
    ensures Leads(start, s') && X !in s'.catalog
  {
    var none: Snapshot := map[];
    s' := GoOn(start, s, Reside(PrunePanes(none)));
    s' := GoOnSweep(start, s', ScanPanes);
    s' := GoOnSweep(start, s', FinishAdoption([]));
    s' := GoOnSweep(start, s', ForgetOld(Some(80)));
  }

  /**
   The condition on adopted panes is needed: a session is steered at 100, no cutoff is after 80 and nothing deletes it,
   and yet it is forgotten, because in between a pane is adopted for it that was last active at 50.
   */
  lemma OldPaneForgetsRecent() returns (before: seq<Action>, m: State, s: State, actions: seq<Action>, s': State)
    ensures Initial(MAX, EMPTY) && Execute(MAX, EMPTY, before) == Some(m)
    ensures Apply(MAX, m, Happen(StartSteer(0, X, 0, 100))) == Some(s) && X in s.catalog
    ensures Execute(MAX, s, actions) == Some(s') && NeverMayForget(MAX, s, actions, X, 100) && X !in s'.catalog
  {
    assert Residents(EMPTY.catalog) == {};
    before, m, s, s' := Steered();
    s' := Ends(s, s');
    s' := Appears(s, s');
    s' := Scans(s, s');
    s' := DatesBackTo50(s, s');
    s' := Bereaves(s, s');
    s' := Forgets(s, s');
    actions :| Execute(MAX, s, actions) == Some(s') && NeverMayForget(MAX, s, actions, X, 100);
  }
}
