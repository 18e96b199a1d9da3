/**
 Runs of the session protocol put together step by step, and stretches that any run may contain.
 */
module Runs {
  import opened Wrappers
  import opened SessionCatalog
  import opened SessionProtocol
  import SessionSafety

  /** Some run leads from one state to another. */
  ghost predicate Reaches(max: nat, s: State, s': State) {
    exists actions :: Execute(max, s, actions) == Some(s')
  }

  lemma {:induction false} ExecuteThen(max: nat, s: State, actions: seq<Action>, m: State, a: Action, s': State)
    requires Execute(max, s, actions) == Some(m) && Apply(max, m, a) == Some(s')
    ensures Execute(max, s, actions + [a]) == Some(s')
    decreases |actions|
  {
    if actions == [] {
      assert [a][1..] == [];
    } else {
      assert (actions + [a])[1..] == actions[1..] + [a];
      ExecuteThen(max, Apply(max, s, actions[0]).value, actions[1..], m, a, s');
    }
  }

  lemma ReachesItself(max: nat, s: State)
    ensures Reaches(max, s, s)
  {
    assert Execute(max, s, []) == Some(s);
  }

  lemma Then(max: nat, s: State, m: State, a: Action, s': State)
    requires Reaches(max, s, m) && Apply(max, m, a) == Some(s')
    ensures Reaches(max, s, s')
  {
    var actions :| Execute(max, s, actions) == Some(m);
    ExecuteThen(max, s, actions, m, a, s');
  }

  /** One more step of a run from `start`. */
  lemma Go(max: nat, start: State, m: State, a: Action) returns (s': State)
    requires Reaches(max, start, m) && Apply(max, m, a).Some?
    ensures Reaches(max, start, s') && Apply(max, m, a) == Some(s')
  {
    s' := Apply(max, m, a).value;
    Then(max, start, m, a, s');
  }

  /** One more step of a turn. */
  lemma GoTurn(max: nat, start: State, m: State, t: TurnId, move: TurnMove) returns (s': State)
    requires Reaches(max, start, m) && t in m.talk.turns && TurnStep(m, t, move).Some?
    ensures Reaches(max, start, s') && TurnStep(m, t, move) == Some(s')
  {
    s' := Go(max, start, m, Play(t, move));
  }

  /** One more step of the lock holder towards a pane. */
  lemma GoLaunch(max: nat, start: State, m: State, move: LaunchMove) returns (s': State)
    requires Reaches(max, start, m) && LaunchStep(m, move).Some?
    ensures Reaches(max, start, s') && LaunchStep(m, move) == Some(s')
  {
    s' := Go(max, start, m, Launch(move));
  }

  lemma GoReside(max: nat, start: State, m: State, move: ResidencyMove) returns (s': State)
    requires Reaches(max, start, m) && ResidencyStep(max, m, move).Some?
    ensures Reaches(max, start, s') && ResidencyStep(max, m, move) == Some(s')
  {
    s' := Go(max, start, m, Reside(move));
  }

  lemma GoAsk(max: nat, start: State, m: State, request: Request) returns (s': State)
    requires Reaches(max, start, m) && AskStep(m, request).Some?
    ensures Reaches(max, start, s') && AskStep(m, request) == Some(s')
  {
    s' := Go(max, start, m, Ask(request));
  }

  lemma GoErrand(max: nat, start: State, m: State, move: ErrandMove) returns (s': State)
    requires Reaches(max, start, m) && ErrandStep(m, move).Some?
    ensures Reaches(max, start, s') && ErrandStep(m, move) == Some(s')
  {
    s' := Go(max, start, m, Run(move));
  }

  lemma GoOutside(max: nat, start: State, m: State, move: OutsideMove) returns (s': State)
    requires Reaches(max, start, m) && OutsideStep(m, move).Some?
    ensures Reaches(max, start, s') && OutsideStep(m, move) == Some(s')
  {
    s' := Go(max, start, m, Happen(move));
  }

  lemma GoEvict(max: nat, start: State, m: State, move: EvictionMove) returns (s': State)
    requires Reaches(max, start, m) && EvictionStep(m, move).Some?
    ensures Reaches(max, start, s') && EvictionStep(m, move) == Some(s')
  {
    s' := Go(max, start, m, Evict(move));
  }

  lemma GoSweep(max: nat, start: State, m: State, move: SweepMove) returns (s': State)
    requires Reaches(max, start, m) && SweepStep(max, m, move).Some?
    ensures Reaches(max, start, s') && SweepStep(max, m, move) == Some(s')
  {
    s' := Go(max, start, m, Sweep(move));
  }

  lemma {:induction false} AboveAll(panes: set<PaneId>) returns (n: nat)
    ensures forall p :: p in panes ==> p.number < n
  {
    if panes == {} {
      n := 0;
    } else {
      var p :| p in panes;
      n := AboveAll(panes - {p});
      n := if n <= p.number then p.number + 1 else n;
    }
  }

  lemma NewPane(conv: map<PaneId, Conversation>) returns (p: PaneId)
    ensures p !in conv
  {
    var n := AboveAll(conv.Keys);
    p := PaneId(n);
  }

  // ---- a session without a pane is given one ----

  /** Every pane that holds a seat has been started. */
  ghost predicate Seated(s: State) {
    forall y :: y in s.catalog && s.catalog[y].pane.Some? ==> s.catalog[y].pane.value in s.world.conv
  }

  function Need(s: State, x: SessionId, purpose: Purpose): Goal
    requires x in s.catalog
  {
    Restore(x, purpose, s.catalog[x].native, s.catalog[x].grave)
  }

  /** With room to spare, the lock holder comes to launch what it read of the session. */
  lemma RoomIsMade(max: nat, start: State, s: State, x: SessionId, purpose: Purpose)
    requires Reaches(max, start, s) && s.creator == Looking(x, purpose) && Seated(s)
    requires x in s.catalog && s.catalog[x].pane.None? && s.catalog[x].turn.None? && |Residents(s.catalog)| < max
    ensures Reaches(max, start, s.(creator := Launching(Need(s, x, purpose))))
  {
    var goal := Need(s, x, purpose);
    var panes: Snapshot := map p | p in s.world.conv :: None;
    assert Prune(s.catalog, panes) == s.catalog;
    Then(max, start, s, Reside(LookUp), s.(creator := MakingRoom(goal)));
    Then(max, start, s.(creator := MakingRoom(goal)), Reside(PrunePanes(panes)), s.(creator := Counting(goal)));
    Then(max, start, s.(creator := Counting(goal)), Reside(CountPanes), s.(creator := Launching(goal)));
  }

  /** A pane started for a session is tagged with it and attached to it. */
  lemma Attaches(max: nat, start: State, s: State, x: SessionId) returns (s': State)
    requires Reaches(max, start, s) && s.creator.Tagging? && s.creator.goal.Restore? && s.creator.goal.x == x
    requires s.creator.pane in s.world.conv && x in s.catalog && s.catalog[x].pane.None?
    ensures Reaches(max, start, s')
    ensures
      var c := s.creator;
      && s'.creator == SessionProtocol.Seated(x, c.goal.purpose) && s'.talk == s.talk
      && s'.catalog == Reseat(s.catalog, x, c.pane, Claude, OrElse(c.native, c.goal.native), c.resumed)
      && s'.world == s.world.(home := s.world.home[x := s.world.conv[c.pane]],
                              yard := s.world.yard.(tags := s.world.yard.tags[c.pane := x]))
  {
    var tagged := GoLaunch(max, start, s, TagPane(x));
    s' := GoLaunch(max, start, tagged, Attach(Claude, 0, 0));
  }

  /** A running turn that nobody steers ends and is cleared. */
  lemma TurnEnds(max: nat, start: State, s: State, t: TurnId, stale: bool) returns (s': State)
    requires Reaches(max, start, s)
    requires t in s.talk.turns && s.talk.turns[t].phase == Running && s.talk.turns[t].permit == Available
    ensures Reaches(max, start, s')
    ensures
      var turn := s.talk.turns[t];
      && s'.catalog == ClearTurn(s.catalog, turn.x, t, turn.included, turn.discard, turn.accepted)
      && s'.world == s.world && s'.creator == s.creator && s'.talk.nextTurn == s.talk.nextTurn
      && s'.talk.turns.Keys == s.talk.turns.Keys
      && (forall u :: u in s.talk.turns && u != t ==> s'.talk.turns[u] == s.talk.turns[u])
      && s'.talk.turns[t] == turn.(permit := HeldByPrompt,
                                   phase := if stale && !turn.accepted && !turn.retried then StaleKilling else Replying)
  {
    var s1 := GoTurn(max, start, s, t, End(stale));
    var s2 := GoTurn(max, start, s1, t, TakePermit);
    s' := GoTurn(max, start, s2, t, Clear);
  }

  // ---- a first prompt ----

  const X := SessionId(0)
  const P1 := PaneId(1)
  const K1 := Conversation(1)

  const EMPTY := State(map[], World(map[], map[], {}, {}, Yard(map[], {}, [], {})), Free, Talk(map[], map[], 0), 0)

  /** One session is known, and it is in this conversation. */
  ghost predicate Holds(max: nat, s: State, session: Session, home: Conversation) {
    && Reaches(max, EMPTY, s)
    && s.catalog.Keys == {X} && s.catalog[X] == session
    && X in s.world.home && s.world.home[X] == home
  }

  /** `session/new` with a system prompt may start a pane. */
  lemma Asked(max: nat) returns (s: State)
    requires max > 0
    ensures Reaches(max, EMPTY, s) && s == EMPTY.(creator := Launching(Fresh(true)))
  {
    ReachesItself(max, EMPTY);
    s := GoAsk(max, EMPTY, EMPTY, AskNew(true));
    assert Prune(map[], map[]) == map[] && Residents(map[]) == {};
    s := GoReside(max, EMPTY, s, PrunePanes(map[]));
    s := GoReside(max, EMPTY, s, CountPanes);
  }

  /** It has started one, and slopd does not know its native id yet. */
  lemma Created(max: nat) returns (s: State)
    requires max > 0
    ensures Holds(max, s, Session(Some(P1), None, Some(Claude), None, true, false, false, None, 0, 0), K1)
    ensures s.creator == Free && s.talk == Talk(map[], map[], 0)
    ensures s.world.conv == map[P1 := K1] && s.world.live == {P1} && s.world.heard == {}
    ensures s.world.yard == Yard(map[P1 := X], {}, [], {})
  {
    s := Asked(max);
    s := GoLaunch(max, EMPTY, s, Start(P1, K1, false));
    s := GoLaunch(max, EMPTY, s, TagPane(X));
    s := GoLaunch(max, EMPTY, s, Attach(Claude, 0, 0));
  }

  const FIRST_TURN := Turn(X, P1, true, true, false, false, Running, false, false, Available)

  /** The first prompt has begun its turn. */
  lemma Begun(max: nat) returns (s: State)
    requires max > 0
    ensures Holds(max, s, Session(Some(P1), None, Some(Claude), None, true, false, false, Some(0), 0, 0), K1)
    ensures s.creator == Free && s.talk == Talk(map[0 := FIRST_TURN], map[], 1)
    ensures s.world.conv == map[P1 := K1] && s.world.live == {P1} && s.world.heard == {}
    ensures s.world.yard == Yard(map[P1 := X], {}, [], {})
  {
    s := Created(max);
    var panes: Snapshot := map[P1 := None];
    assert Prune(s.catalog, panes) == s.catalog;
    s := GoAsk(max, EMPTY, s, AskPrompt(X, false));
    s := GoReside(max, EMPTY, s, PrunePanes(panes));
    s := GoReside(max, EMPTY, s, LookUp);
    s := GoErrand(max, EMPTY, s, Begin(0, 0));
  }
}
