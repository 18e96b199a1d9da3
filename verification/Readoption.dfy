/**
 How two turns of one session come to be active: a session deleted during its turn is forgotten
 at once, and a pane that slopd restores brings its id back before the turn has ended.
 */
module Readoption {
  import opened Wrappers
  import opened SessionCatalog
  import opened SessionProtocol
  import opened Runs
  import opened TurnProtocol

  /** A session that is in the catalog without a turn, though a turn of its id is active, takes another prompt. */
  lemma ReadoptedGoesDouble(max: nat, start: State, s: State, x: SessionId) returns (s': State)
    requires Reaches(max, start, s) && s.creator == Free && Runs.Seated(s) && s.talk.nextTurn !in s.talk.turns
    requires x in s.catalog && s.catalog[x].turn.None? && s.catalog[x].pane.Some? && s.catalog[x].backend.Some?
    requires HasActiveTurn(s.talk, x)
    ensures Reaches(max, start, s') && !OneEach(s'.talk)
  {
    var panes: Snapshot := map p | p in s.world.conv :: None;
    assert Prune(s.catalog, panes) == s.catalog;
    s' := GoAsk(max, start, s, AskPrompt(x, false));
    s' := GoReside(max, start, s', PrunePanes(panes));
    s' := GoReside(max, start, s', LookUp);
    s' := BeginsDouble(max, start, s', x);
  }

  lemma BeginsDouble(max: nat, start: State, s: State, x: SessionId) returns (s': State)
    requires Reaches(max, start, s) && s.creator == SessionProtocol.Seated(x, ToPrompt(false)) && s.talk.nextTurn !in s.talk.turns
    requires x in s.catalog && s.catalog[x].turn.None? && s.catalog[x].pane.Some? && s.catalog[x].backend.Some?
    requires HasActiveTurn(s.talk, x)
    ensures Reaches(max, start, s') && !OneEach(s'.talk)
  {
    var t :| t in s.talk.turns && Active(s.talk.turns[t].phase) && s.talk.turns[t].x == x;
    s' := GoErrand(max, start, s, Begin(0, 0));
    assert Together(s'.talk.turns[t], s'.talk.turns[s.talk.nextTurn]);
  }

  // ---- a run ----

  const P2 := PaneId(2)
  const MAX := 2

  /** The session is deleted while its first prompt is under way. */
  lemma Aimed() returns (s: State)
    ensures Holds(MAX, s, Session(Some(P1), None, Some(Claude), None, true, false, false, Some(0), 0, 0), K1)
    ensures s.creator == Deleting(X, P1) && s.talk == Talk(map[0 := FIRST_TURN], map[], 1)
    ensures s.world.conv == map[P1 := K1] && s.world.live == {P1}
  {
    s := Begun(MAX);
    var panes: Snapshot := map[P1 := None];
    assert Prune(s.catalog, panes) == s.catalog;
    s := GoAsk(MAX, EMPTY, s, AskDelete(X));
    s := GoReside(MAX, EMPTY, s, PrunePanes(panes));
    s := GoReside(MAX, EMPTY, s, LookUp);
    s := GoErrand(MAX, EMPTY, s, AimDelete);
  }

  lemma Deleted() returns (s: State)
    ensures Reaches(MAX, EMPTY, s) && s.catalog == map[]
    ensures s.creator == Free && s.talk == Talk(map[0 := FIRST_TURN], map[], 1)
    ensures s.world.conv == map[P1 := K1] && s.world.live == {}
  {
    s := Aimed();
    s := GoErrand(MAX, EMPTY, s, KillDeleted);
    s := GoErrand(MAX, EMPTY, s, RemoveSession);
  }

  /** slopd restores a pane with the tag of the session, and the periodic sweep comes to it. */
  lemma Restored() returns (s: State)
    ensures Reaches(MAX, EMPTY, s) && s.catalog == map[]
    ensures s.creator == Adopting({P2}) && s.talk == Talk(map[0 := FIRST_TURN], map[], 1)
    ensures s.world.conv == map[P1 := K1, P2 := K1] && P2 in s.world.yard.named
    ensures P2 in s.world.yard.tags && s.world.yard.tags[P2] == X
  {
    s := Deleted();
    var panes: Snapshot := map[P2 := None];
    assert Prune(s.catalog, panes) == s.catalog && ResidentPanes(s.catalog) == {} && panes.Keys == {P2};
    s := GoOutside(MAX, EMPTY, s, PaneAppears(P2, K1, Some(X)));
    s := GoAsk(MAX, EMPTY, s, AskReconcile);
    s := GoReside(MAX, EMPTY, s, PrunePanes(panes));
    s := GoSweep(MAX, EMPTY, s, ScanPanes);
    assert {P2} - {} == {P2};
  }

  /** The sweep takes the pane for a session of that id, and ends. */
  lemma Readopted() returns (s: State)
    ensures Reaches(MAX, EMPTY, s) && s.catalog.Keys == {X} && s.catalog[X].turn.None?
    ensures s.catalog[X].pane == Some(P2) && s.catalog[X].backend.Some?
    ensures s.creator == Free && s.talk == Talk(map[0 := FIRST_TURN], map[], 1) && P2 in s.world.conv
  {
    s := Restored();
    s := GoSweep(MAX, EMPTY, s, AdoptPane(X, P2, Claude, 0));
    s := GoSweep(MAX, EMPTY, s, FinishAdoption([]));
    s := GoSweep(MAX, EMPTY, s, ForgetOld(None));
    assert Residents(s.catalog) == {X};
    s := GoSweep(MAX, EMPTY, s, CheckTrim);
  }

  /** So some run has two turns of one session active. */
  lemma TwoTurnsOfOneSession() returns (actions: seq<Action>, s': State)
    ensures Initial(MAX, EMPTY) && Execute(MAX, EMPTY, actions) == Some(s') && !OneEach(s'.talk)
  {
    var s := Readopted();
    assert Residents(EMPTY.catalog) == {};
    assert Active(s.talk.turns[0].phase);
    s' := ReadoptedGoesDouble(MAX, EMPTY, s, X);
    actions :| Execute(MAX, EMPTY, actions) == Some(s');
  }
}
