/**
 How a prompt goes bare: the retry after a stale pane looks for a grave and records it
 without the creation lock, and nothing checks that it is still the session's own.
 */
module StaleWindow {
  import opened Wrappers
  import opened SessionCatalog
  import opened SessionProtocol
  import opened Runs
  import opened SystemPrompt
  import SessionSafety

  // ---- from a misfit about to be recorded to a bare prompt ----

  /** What is left of the session, and of all else, once its pane is gone and a prompt looks at it. */
  ghost predicate Looked(s: State, x: SessionId, s': State)
    requires x in s.catalog
  {
    && s'.creator == Looking(x, ToPrompt(false)) && s'.talk == s.talk && Runs.Seated(s')
    && s'.world.home == s.world.home && s'.world.conv == s.world.conv && s'.world.heard == s.world.heard
    && s'.world.yard.named == s.world.yard.named
    && x in s'.catalog && s'.catalog[x].pane.None? && s'.catalog[x].turn.None?
    && s'.catalog[x].hasSystemPrompt == s.catalog[x].hasSystemPrompt && s'.catalog[x].native == s.catalog[x].native
    && Residents(s'.catalog) == Residents(s.catalog) - {x}
  }

  lemma LooksSeatless(max: nat, start: State, s: State, x: SessionId) returns (s': State)
    requires Reaches(max, start, s) && s.creator == Free && Runs.Seated(s)
    requires x in s.catalog && s.catalog[x].turn.None? && s.catalog[x].pane.None?
    ensures Reaches(max, start, s') && Looked(s, x, s')
  {
    var asked := GoAsk(max, start, s, AskPrompt(x, false));
    s' := GoReside(max, start, asked, SkipPrune);
  }

  lemma PrunedOne(c: Catalog, x: SessionId, conv: map<PaneId, Conversation>)
    requires x in c && c[x].pane.Some? && SessionSafety.Distinct(c)
    requires forall y :: y in c && c[y].pane.Some? ==> c[y].pane.value in conv
    ensures
      var panes: Snapshot := map q | q in conv && q != c[x].pane.value :: None;
      && Prune(c, panes) == c[x := Unseated(c[x])]
      && Residents(Prune(c, panes)) == Residents(c) - {x}
  {
    var panes: Snapshot := map q | q in conv && q != c[x].pane.value :: None;
    forall y | y in c
      ensures PrunedSession(c[y], panes) == if y == x then Unseated(c[x]) else c[y]
    {
    }
  }

  lemma Bereaves(max: nat, start: State, s: State, x: SessionId, p: PaneId) returns (s': State)
    requires Reaches(max, start, s) && s.creator == Free
    ensures Reaches(max, start, s') && s'.creator == Ensuring(x, ToPrompt(false))
    ensures p in s.world.conv ==> p !in s'.world.live
    ensures s'.world.home == s.world.home && s'.world.conv == s.world.conv && s'.world.heard == s.world.heard
    ensures s'.world.yard.named == s.world.yard.named && s'.catalog == s.catalog && s'.talk == s.talk
  {
    var dead := GoOutside(max, start, s, PaneDies(p));
    s' := GoAsk(max, start, dead, AskPrompt(x, false));
  }

  lemma LooksBereaved(max: nat, start: State, s: State, x: SessionId) returns (s': State)
    requires Reaches(max, start, s) && s.creator == Free && Runs.Seated(s) && SessionSafety.Distinct(s.catalog)
    requires x in s.catalog && s.catalog[x].turn.None? && s.catalog[x].pane.Some?
    ensures Reaches(max, start, s') && Looked(s, x, s')
  {
    var p := s.catalog[x].pane.value;
    var asked := Bereaves(max, start, s, x, p);
    var panes: Snapshot := map q | q in s.world.conv && q != p :: None;
    PrunedOne(s.catalog, x, s.world.conv);
    s' := Prunes(max, start, asked, x, panes);
  }

  lemma Prunes(max: nat, start: State, s: State, x: SessionId, panes: Snapshot) returns (s': State)
    requires Reaches(max, start, s) && s.creator == Ensuring(x, ToPrompt(false)) && Truthful(s, panes)
    ensures Reaches(max, start, s')
    ensures s' == s.(creator := Looking(x, ToPrompt(false)), catalog := Prune(s.catalog, panes))
  {
    s' := GoReside(max, start, s, PrunePanes(panes));
  }

  /** Nothing holds the lock, and the session has no turn; its pane is gone by the time a prompt looks. */
  lemma LosesPane(max: nat, start: State, s: State, x: SessionId) returns (s': State)
    requires Reaches(max, start, s) && s.creator == Free && Runs.Seated(s) && SessionSafety.Distinct(s.catalog)
    requires x in s.catalog && s.catalog[x].turn.None?
    ensures Reaches(max, start, s') && Looked(s, x, s')
  {
    if s.catalog[x].pane.None? {
      s' := LooksSeatless(max, start, s, x);
    } else {
      s' := LooksBereaved(max, start, s, x);
    }
  }

  /** The session has a new pane, in a conversation other than `c`. */
  ghost predicate Reseated(s: State, x: SessionId, c: Conversation, s': State)
    requires x in s.catalog
  {
    && s'.creator == SessionProtocol.Seated(x, ToPrompt(false)) && s'.talk == s.talk && Runs.Seated(s')
    && x in s'.catalog && s'.catalog[x].pane.Some? && s'.catalog[x].turn.None? && s'.catalog[x].backend.Some?
    && s'.catalog[x].hasSystemPrompt == s.catalog[x].hasSystemPrompt
    && Residents(s'.catalog) == Residents(s.catalog) + {x}
    && var q := s'.catalog[x].pane.value;
    && q in s'.world.live && q in s'.world.conv && s'.world.conv[q] != c
    && (forall p :: p in s.world.conv ==> p != q && p in s'.world.conv && s'.world.conv[p] == s.world.conv[p])
    && s'.world.heard == s.world.heard && s'.world.yard.named == s.world.yard.named
  }

  /** The lock holder is about to start a pane, with or without a native id to resume. */
  lemma WantsPane(max: nat, start: State, s: State, x: SessionId) returns (s': State)
    requires Reaches(max, start, s) && s.creator == Looking(x, ToPrompt(false)) && Runs.Seated(s)
    requires x in s.catalog && s.catalog[x].pane.None? && s.catalog[x].turn.None? && |Residents(s.catalog)| < max
    ensures Reaches(max, start, s')
    ensures s' == s.(creator := Launching(Restore(x, ToPrompt(false), s.catalog[x].native, None)))
  {
    RoomIsMade(max, start, s, x, ToPrompt(false));
    s' := s.(creator := Launching(Need(s, x, ToPrompt(false))));
    if s.catalog[x].grave.Some? {
      s' := GoLaunch(max, start, s', ReviveFails);
    }
  }

  lemma StartsElsewhere(max: nat, start: State, s: State, goal: Goal, c: Conversation) returns (s': State, q: PaneId)
    requires Reaches(max, start, s) && s.creator == Launching(goal) && goal.Restore? && goal.grave.None?
    requires goal.native != Some(c)
    ensures Reaches(max, start, s') && q !in s.world.conv
    ensures s'.catalog == s.catalog && s'.talk == s.talk
    ensures s'.creator.Tagging? && s'.creator.goal == goal && s'.creator.pane == q
    ensures q in s'.world.live && q in s'.world.conv && s'.world.conv[q] != c
    ensures s'.world.conv == s.world.conv[q := s'.world.conv[q]]
    ensures s'.world.heard == s.world.heard && s'.world.yard == s.world.yard
  {
    q := NewPane(s.world.conv);
    s' := GoLaunch(max, start, s, Start(q, Conversation(c.number + 1), false));
  }

  /** The session is given a pane again, in a conversation other than `c`. */
  lemma Reseats(max: nat, start: State, s: State, x: SessionId, c: Conversation) returns (s': State)
    requires Reaches(max, start, s) && s.creator == Looking(x, ToPrompt(false)) && Runs.Seated(s)
    requires x in s.catalog && s.catalog[x].pane.None? && s.catalog[x].turn.None? && |Residents(s.catalog)| < max
    requires s.catalog[x].native != Some(c)
    ensures Reaches(max, start, s') && Reseated(s, x, c, s')
  {
    var launching := WantsPane(max, start, s, x);
    var started, q := StartsElsewhere(max, start, launching, launching.creator.goal, c);
    s' := Attaches(max, start, started, x);
  }

  /** A turn of the session runs in its pane, which nobody steers. */
  ghost predicate Underway(s: State, x: SessionId, u: TurnId) {
    && s.creator == Free && Runs.Seated(s)
    && x in s.catalog && s.catalog[x].pane.Some? && s.catalog[x].turn == Some(u)
    && u in s.talk.turns && s.talk.turns[u].x == x && Some(s.talk.turns[u].pane) == s.catalog[x].pane
    && s.talk.turns[u].phase == Running && s.talk.turns[u].permit == Available
  }

  /** Everything but this session's turn is as it was. */
  ghost predicate Beside(s: State, x: SessionId, u: TurnId, s': State)
    requires x in s.catalog
  {
    && s'.talk.nextTurn == u + 1
    && (forall t :: t in s.talk.turns && t != u ==> t in s'.talk.turns && s'.talk.turns[t] == s.talk.turns[t])
    && x in s'.catalog && s'.catalog[x].hasSystemPrompt == s.catalog[x].hasSystemPrompt
    && s'.catalog[x].pane == s.catalog[x].pane
    && Residents(s'.catalog) == Residents(s.catalog)
    && s'.world.conv == s.world.conv && s'.world.live == s.world.live && s'.world.yard == s.world.yard
  }

  lemma Begins(max: nat, start: State, s: State, x: SessionId) returns (s': State)
    requires Reaches(max, start, s) && s.creator == SessionProtocol.Seated(x, ToPrompt(false)) && Runs.Seated(s)
    requires x in s.catalog && s.catalog[x].pane.Some? && s.catalog[x].turn.None? && s.catalog[x].backend.Some?
    ensures Reaches(max, start, s') && Underway(s', x, s.talk.nextTurn) && Beside(s, x, s.talk.nextTurn, s')
    ensures s'.world == s.world && !s'.talk.turns[s.talk.nextTurn].sent
  {
    s' := GoErrand(max, start, s, Begin(0, 0));
  }

  /** Its prompt is accepted, so that the session counts as delivered. */
  lemma Delivers(max: nat, start: State, s: State, x: SessionId, u: TurnId) returns (s': State)
    requires Reaches(max, start, s) && Underway(s, x, u) && !s.talk.turns[u].sent && s.talk.nextTurn == u + 1
    requires s.catalog[x].pane.value in s.world.live && s.catalog[x].pane.value in s.world.conv
    ensures Reaches(max, start, s') && Underway(s', x, u) && Beside(s, x, u, s')
    ensures s'.catalog[x].delivered && s'.talk.turns[u].accepted
    ensures s'.world.heard <= s.world.heard + {(x, s.world.conv[s.catalog[x].pane.value])}
  {
    s' := GoTurn(max, start, s, u, Send);
    s' := GoTurn(max, start, s', u, Accept);
    s' := GoTurn(max, start, s', u, MarkResumable);
  }

  /** A session without a pane that counts as delivered, and whose grave is a misfit. */
  ghost predicate Misburied(s: State, x: SessionId) {
    && s.creator == Free && Runs.Seated(s)
    && Wants(s.catalog, x) && s.catalog[x].delivered && s.catalog[x].pane.None? && s.catalog[x].turn.None?
    && s.catalog[x].grave.Some? && s.catalog[x].grave.value in s.world.conv
    && s.catalog[x].grave.value in s.world.yard.named && !Heard(s.world, x, s.catalog[x].grave.value)
  }

  /** The session is delivered, but its grave holds a conversation that never heard the system prompt. */
  ghost predicate Misrecorded(s: State, x: SessionId) {
    && Wants(s.catalog, x) && s.catalog[x].delivered && s.catalog[x].native.Some?
    && s.catalog[x].grave.Some? && s.catalog[x].grave.value in s.world.conv
    && s.catalog[x].grave.value in s.world.yard.named && !Heard(s.world, x, s.catalog[x].grave.value)
  }

  /** The retry records its grave. */
  lemma Misrecords(max: nat, start: State, s: State, t: TurnId, x: SessionId, g: PaneId, u: TurnId) returns (s': State)
    requires Reaches(max, start, s) && Underway(s, x, u) && t != u
    requires t in s.talk.turns && s.talk.turns[t].phase == StaleWriting(Some(g)) && s.talk.turns[t].x == x
    requires s.catalog[x].hasSystemPrompt && s.catalog[x].delivered
    requires g in s.world.conv && g in s.world.yard.named && !Heard(s.world, x, g)
    ensures Reaches(max, start, s') && Underway(s', x, u) && Misrecorded(s', x)
    ensures s'.talk.turns[u] == s.talk.turns[u] && s'.talk.nextTurn == s.talk.nextTurn
    ensures Residents(s'.catalog) == Residents(s.catalog)
  {
    s' := GoTurn(max, start, s, t, WriteStaleGrave(0));
  }

  /** Then the pane of the accepted prompt ends, and its turn with it. */
  lemma Misburies(max: nat, start: State, s: State, x: SessionId, u: TurnId) returns (s': State)
    requires Reaches(max, start, s) && Underway(s, x, u) && Misrecorded(s, x) && s.talk.turns[u].accepted
    ensures Reaches(max, start, s') && Misburied(s', x)
    ensures Residents(s'.catalog) == Residents(s.catalog) - {x}
  {
    var gone := GoTurn(max, start, s, u, SeePaneGone(false));
    s' := TurnEnds(max, start, gone, u, false);
  }

  /** From there the next prompt revives the grave and goes bare. */
  lemma MisburiedSendsBare(max: nat, start: State, s: State, x: SessionId) returns (s': State)
    requires Reaches(max, start, s) && Misburied(s, x) && |Residents(s.catalog)| < max
    ensures Reaches(max, start, s') && SendsBare(s', s.talk.nextTurn)
  {
    var asked := GoAsk(max, start, s, AskPrompt(x, false));
    var looking := GoReside(max, start, asked, SkipPrune);
    RoomIsMade(max, start, looking, x, ToPrompt(false));
    var launching := looking.(creator := Launching(Need(looking, x, ToPrompt(false))));
    var q := NewPane(s.world.conv);
    var revived := GoLaunch(max, start, launching, Revive(q));
    var seated := Attaches(max, start, revived, x);
    s' := GoErrand(max, start, seated, Begin(0, 0));
  }

  /** The session has a live pane of its own, in a conversation other than the one of the grave the retry holds. */
  lemma Relocates(max: nat, start: State, s: State, x: SessionId, g: PaneId) returns (s': State)
    requires Reaches(max, start, s) && s.creator == Free && Runs.Seated(s) && SessionSafety.Distinct(s.catalog)
    requires Wants(s.catalog, x) && s.catalog[x].turn.None? && |Residents(s.catalog) - {x}| < max
    requires g in s.world.conv && !Heard(s.world, x, g) && s.catalog[x].native != Some(s.world.conv[g])
    ensures Reaches(max, start, s') && s'.creator == SessionProtocol.Seated(x, ToPrompt(false)) && Runs.Seated(s')
    ensures s'.talk == s.talk && Wants(s'.catalog, x) && s'.catalog[x].turn.None?
    ensures s'.catalog[x].pane.Some? && s'.catalog[x].backend.Some?
    ensures s'.catalog[x].pane.value in s'.world.live && s'.catalog[x].pane.value in s'.world.conv
    ensures g in s'.world.conv && s'.world.conv[s'.catalog[x].pane.value] != s'.world.conv[g]
    ensures !Heard(s'.world, x, g) && s'.world.yard.named == s.world.yard.named
    ensures Residents(s'.catalog) - {x} == Residents(s.catalog) - {x}
  {
    var looking := LosesPane(max, start, s, x);
    s' := Reseats(max, start, looking, x, s.world.conv[g]);
  }

  /** The session comes to count as delivered there, and the grave still never heard the system prompt. */
  lemma DeliversElsewhere(max: nat, start: State, s: State, x: SessionId, g: PaneId) returns (s': State)
    requires Reaches(max, start, s) && s.creator == SessionProtocol.Seated(x, ToPrompt(false)) && Runs.Seated(s)
    requires Wants(s.catalog, x) && s.catalog[x].turn.None? && s.catalog[x].pane.Some? && s.catalog[x].backend.Some?
    requires s.catalog[x].pane.value in s.world.live && s.catalog[x].pane.value in s.world.conv
    requires g in s.world.conv && s.world.conv[s.catalog[x].pane.value] != s.world.conv[g] && !Heard(s.world, x, g)
    ensures Reaches(max, start, s') && Underway(s', x, s.talk.nextTurn)
    ensures s'.catalog[x].hasSystemPrompt && s'.catalog[x].delivered && s'.talk.turns[s.talk.nextTurn].accepted
    ensures forall t :: t in s.talk.turns && t != s.talk.nextTurn ==> t in s'.talk.turns && s'.talk.turns[t] == s.talk.turns[t]
    ensures g in s'.world.conv && !Heard(s'.world, x, g) && s'.world.yard.named == s.world.yard.named
    ensures Residents(s'.catalog) == Residents(s.catalog)
  {
    var begun := Begins(max, start, s, x);
    s' := Delivers(max, start, begun, x, s.talk.nextTurn);
  }

  /**
   Whenever nothing holds the lock, the session has no turn and there is room for its pane, a retry that holds a
   misfit lets some continuation send a bare prompt.
   */
  lemma MisfitGoesBare(max: nat, start: State, s: State, t: TurnId) returns (s': State, u: TurnId)
    requires Reaches(max, start, s) && PromptOk(s) && SessionSafety.PanesOk(s)
    requires s.creator == Free && HoldsMisfit(s, t) && t < s.talk.nextTurn
    requires s.catalog[s.talk.turns[t].x].turn.None? && |Residents(s.catalog) - {s.talk.turns[t].x}| < max
    ensures Reaches(max, start, s') && SendsBare(s', u)
  {
    var x, g := s.talk.turns[t].x, s.talk.turns[t].phase.found.value;
    NativeIsNot(s, x, s.world.conv[g]);
    s', u := HeldGoesBare(max, start, s, t, x, g);
  }

  lemma HeldGoesBare(max: nat, start: State, s: State, t: TurnId, x: SessionId, g: PaneId) returns (s': State, u: TurnId)
    requires Reaches(max, start, s) && s.creator == Free && Runs.Seated(s) && SessionSafety.Distinct(s.catalog)
    requires t in s.talk.turns && t < s.talk.nextTurn && s.talk.turns[t].phase == StaleWriting(Some(g)) && s.talk.turns[t].x == x
    requires Wants(s.catalog, x) && s.catalog[x].turn.None? && |Residents(s.catalog) - {x}| < max
    requires g in s.world.conv && g in s.world.yard.named && !Heard(s.world, x, g)
    requires s.catalog[x].native != Some(s.world.conv[g])
    ensures Reaches(max, start, s') && SendsBare(s', u)
  {
    var seated := Relocates(max, start, s, x, g);
    var delivered := DeliversElsewhere(max, start, seated, x, g);
    var misrecorded := Misrecords(max, start, delivered, t, x, g, s.talk.nextTurn);
    var misburied := Misburies(max, start, misrecorded, x, s.talk.nextTurn);
    assert Residents(misburied.catalog) == Residents(s.catalog) - {x};
    u := misburied.talk.nextTurn;
    s' := MisburiedSendsBare(max, start, misburied, x);
  }

  lemma NativeIsNot(s: State, x: SessionId, c: Conversation)
    requires Coherent(s.catalog, s.world) && Wants(s.catalog, x) && !Fitting(s.world, x, c)
    ensures s.catalog[x].native != Some(c)
  {
  }

  // ---- a run that comes to one ----

  const P2 := PaneId(2)
  const K2 := Conversation(2)
  const MAX := 2

  /** slopd learns the native id of the pane, which then dies before the prompt is sent. */
  lemma Bereaved() returns (s: State)
    ensures Holds(MAX, s, Session(Some(P1), None, Some(Claude), None, true, false, false, Some(0), 0, 0), K1)
    ensures s.creator == Free && s.talk == Talk(map[0 := FIRST_TURN], map[], 1)
    ensures s.world.conv == map[P1 := K1] && s.world.live == {} && s.world.heard == {}
    ensures s.world.yard == Yard(map[P1 := X], {P1}, [P1], {})
  {
    s := Begun(MAX);
    s := GoOutside(MAX, EMPTY, s, LearnNative(P1));
    s := GoOutside(MAX, EMPTY, s, PaneDies(P1));
  }

  const SEARCHING := FIRST_TURN.(phase := StaleWriting(Some(P1)), permit := HeldByPrompt)

  /** The prompt has failed and its turn is cleared. */
  lemma Failed() returns (s: State)
    ensures Holds(MAX, s, Session(Some(P1), None, Some(Claude), None, true, false, false, None, 0, 0), K1)
    ensures s.creator == Free && s.talk.turns.Keys == {0} && s.talk.nextTurn == 1
    ensures s.talk.turns[0] == FIRST_TURN.(phase := StaleKilling, permit := HeldByPrompt)
    ensures s.world.conv == map[P1 := K1] && s.world.live == {} && s.world.heard == {}
    ensures s.world.yard == Yard(map[P1 := X], {P1}, [P1], {})
  {
    s := Bereaved();
    s := TurnEnds(MAX, EMPTY, s, 0, true);
  }

  /** The retry has unseated the session. */
  lemma Retrying() returns (s: State)
    ensures Holds(MAX, s, Session(None, None, None, None, true, false, false, None, 0, 0), K1)
    ensures s.creator == Free && s.talk.turns.Keys == {0} && s.talk.nextTurn == 1
    ensures s.talk.turns[0] == FIRST_TURN.(phase := StaleBurying, permit := HeldByPrompt)
    ensures s.world.conv == map[P1 := K1] && s.world.live == {} && s.world.heard == {}
    ensures s.world.yard == Yard(map[P1 := X], {P1}, [P1], {})
  {
    s := Failed();
    s := GoTurn(MAX, EMPTY, s, 0, KillStale(false));
    s := GoTurn(MAX, EMPTY, s, 0, UnseatStale);
  }

  /** It has found the newest grave of the session, that of its own pane. */
  lemma Searching() returns (s: State)
    ensures Holds(MAX, s, Session(None, None, None, None, true, false, false, None, 0, 0), K1)
    ensures s.creator == Free && s.talk.turns.Keys == {0} && s.talk.turns[0] == SEARCHING && s.talk.nextTurn == 1
    ensures s.world.conv == map[P1 := K1] && s.world.live == {} && s.world.heard == {}
    ensures s.world.yard == Yard(map[P1 := X], {P1}, [P1], {})
  {
    s := Retrying();
    assert s.world.yard.graves[0] == P1;
    assert NewestGrave(s.world.yard, X) == Some(P1);
    s := GoTurn(MAX, EMPTY, s, 0, FetchStaleGrave(true));
  }

  /** Before it is recorded, another request finds neither grave nor native id. */
  lemma Resuming() returns (s: State)
    ensures Holds(MAX, s, Session(None, None, None, None, true, false, false, None, 0, 0), K1)
    ensures s.creator == Launching(Restore(X, ToResume, None, None))
    ensures s.talk.turns.Keys == {0} && s.talk.turns[0] == SEARCHING && s.talk.nextTurn == 1
    ensures s.world.conv == map[P1 := K1] && s.world.live == {} && s.world.heard == {}
    ensures s.world.yard == Yard(map[P1 := X], {P1}, [P1], {})
  {
    s := Searching();
    assert Residents(s.catalog) == {};
    s := GoAsk(MAX, EMPTY, s, AskResume(X));
    s := GoReside(MAX, EMPTY, s, SkipPrune);
    RoomIsMade(MAX, EMPTY, s, X, ToResume);
    s := s.(creator := Launching(Need(s, X, ToResume)));
  }

  /** So it starts a pane from nothing. */
  lemma Restarting() returns (s: State)
    ensures Holds(MAX, s, Session(None, None, None, None, true, false, false, None, 0, 0), K1)
    ensures s.creator == Tagging(Restore(X, ToResume, None, None), P2, false, None)
    ensures s.talk.turns.Keys == {0} && s.talk.turns[0] == SEARCHING && s.talk.nextTurn == 1
    ensures s.world.conv.Keys == {P1, P2} && s.world.conv[P1] == K1 && s.world.conv[P2] == K2 && s.world.heard == {}
    ensures s.world.live == {P2} && s.world.yard.named == {P1} && s.world.yard.graves == [P1]
  {
    s := Resuming();
    s := GoLaunch(MAX, EMPTY, s, Start(P2, K2, false));
  }

  /** The session is now in the second conversation; the retry still holds the first. */
  lemma Restarted() returns (s: State)
    ensures Holds(MAX, s, Session(Some(P2), None, Some(Claude), None, true, false, false, None, 0, 0), K2)
    ensures s.creator == Free && s.talk.turns.Keys == {0} && s.talk.turns[0] == SEARCHING && s.talk.nextTurn == 1
    ensures s.world.conv.Keys == {P1, P2} && s.world.conv[P1] == K1 && s.world.conv[P2] == K2 && s.world.heard == {}
    ensures s.world.live == {P2} && s.world.yard.named == {P1} && s.world.yard.graves == [P1]
  {
    s := Restarting();
    s := Attaches(MAX, EMPTY, s, X);
    s := GoErrand(MAX, EMPTY, s, FinishResume(0, 0));
  }

  lemma RestartedIsSound(s: State)
    requires s.catalog.Keys == {X} && s.catalog[X] == Session(Some(P2), None, Some(Claude), None, true, false, false, None, 0, 0)
    requires s.world.home.Keys >= {X} && s.world.home[X] == K2
    requires s.creator == Free && s.talk.turns.Keys == {0} && s.talk.turns[0] == SEARCHING
    requires s.world.conv.Keys == {P1, P2} && s.world.conv[P1] == K1 && s.world.conv[P2] == K2 && s.world.heard == {}
    requires s.world.live == {P2} && s.world.yard.named == {P1} && s.world.yard.graves == [P1]
    ensures PromptOk(s) && SessionSafety.PanesOk(s) && HoldsMisfit(s, 0)
  {
  }

  /**
   From an empty catalog: a prompt finds its pane stale and its retry finds the grave; before the retry records
   it, the session is resumed and restarts from nothing; and some continuation then sends a bare prompt.
   */
  lemma WindowBreaksDelivery() returns (actions: seq<Action>, s': State, u: TurnId)
    ensures Initial(MAX, EMPTY) && Execute(MAX, EMPTY, actions) == Some(s') && SendsBare(s', u)
  {
    var s := Restarted();
    RestartedIsSound(s);
    assert Residents(EMPTY.catalog) == {} && Residents(s.catalog) - {X} == {};
    s', u := MisfitGoesBare(MAX, EMPTY, s, 0);
    actions :| Execute(MAX, EMPTY, actions) == Some(s');
  }
}
