/**
 Delivery of the ACP system prompt over every run of one adapter process: a prompt
 sent to a conversation that has not yet accepted the session's system prompt carries it.

 The code keeps this exactly as long as no stale retry records a misfit: a grave that can be
 revived, holds another conversation than the one the session is in, and never heard the
 system prompt. `StaleWindow` shows that any misfit a retry is about to record lets the
 adapter send a bare prompt, and has a run that comes to one.
 */
module SystemPrompt {
  import opened Wrappers
  import opened SessionCatalog
  import opened SessionProtocol
  import SessionSafety
  import TurnProtocol

  predicate Wants(c: Catalog, x: SessionId) {
    x in c && c[x].hasSystemPrompt
  }

  /** The pane holds the conversation that the session was last attached to. */
  predicate AtHome(w: World, x: SessionId, pane: PaneId) {
    x in w.home && pane in w.conv && w.conv[pane] == w.home[x]
  }

  predicate Heard(w: World, x: SessionId, pane: PaneId) {
    pane in w.conv && (x, w.conv[pane]) in w.heard
  }

  /** A conversation the session is in or that has accepted its system prompt. */
  predicate Fitting(w: World, x: SessionId, c: Conversation) {
    x in w.home && (c == w.home[x] || (x, c) in w.heard)
  }

  /** A dead pane; if it can be revived, what it holds is fitting. */
  predicate FittingGrave(w: World, x: SessionId, grave: PaneId) {
    && grave in w.conv && grave !in w.live
    && (grave in w.yard.named ==> Fitting(w, x, w.conv[grave]))
  }

  /** A grave that can be revived and holds a conversation that is not fitting. */
  predicate Misfit(w: World, x: SessionId, grave: PaneId) {
    grave in w.conv && grave in w.yard.named && !Fitting(w, x, w.conv[grave])
  }

  predicate SessionCoherent(s: Session, w: World, x: SessionId)
    requires x in w.home
  {
    && (s.pane.Some? ==> AtHome(w, x, s.pane.value))
    && (s.grave.Some? ==> FittingGrave(w, x, s.grave.value))
    && (s.native.Some? ==> Fitting(w, x, s.native.value))
    && (s.delivered ==> (x, w.home[x]) in w.heard)
  }

  /** A session's pane holds the conversation it is in, its grave and native id fitting ones, and that conversation has accepted the system prompt once it counts as delivered. */
  ghost predicate Coherent(c: Catalog, w: World) {
    && (forall x :: x in c ==> x in w.home && (c[x].hasSystemPrompt ==> SessionCoherent(c[x], w, x)))
    && (forall p :: p in w.yard.graves ==> p in w.conv && p !in w.live)
  }

  predicate GoalCoherent(c: Catalog, w: World, goal: Goal) {
    match goal
    case Fresh(_) => true
    case Restore(x, _, native, grave) =>
      && (x in c ==> c[x].turn.None?)
      && (Wants(c, x) ==>
            && x in w.home
            && (native.Some? ==> Fitting(w, x, native.value))
            && (grave.Some? ==> FittingGrave(w, x, grave.value)))
  }

  predicate AfterCoherent(c: Catalog, w: World, after: After) {
    after.ForRoom? ==> GoalCoherent(c, w, after.goal)
  }

  predicate HandCoherent(c: Catalog, w: World, x: SessionId, pane: PaneId) {
    Wants(c, x) ==> AtHome(w, x, pane)
  }

  /** A pane started for a session is known by no native id but its own, and resumes only a fitting conversation. */
  predicate StartedCoherent(c: Catalog, w: World, goal: Goal, pane: PaneId, resumed: bool, native: Option<Conversation>) {
    && pane in w.conv
    && (native.Some? ==> native.value == w.conv[pane])
    && (goal.Restore? ==>
          && (native.None? && goal.native.Some? ==> goal.native.value == w.conv[pane])
          && (resumed && Wants(c, goal.x) ==> Fitting(w, goal.x, w.conv[pane])))
  }

  predicate CreatorCoherent(c: Catalog, w: World, creator: Creator) {
    match creator
    case MakingRoom(goal) => GoalCoherent(c, w, goal)
    case Counting(goal) => GoalCoherent(c, w, goal)
    case Choosing(after) => AfterCoherent(c, w, after)
    case Taking(_, after) => AfterCoherent(c, w, after)
    case Killing(victim, pane, _, after) => AfterCoherent(c, w, after) && HandCoherent(c, w, victim, pane)
    case Burying(victim, pane, after) => AfterCoherent(c, w, after) && HandCoherent(c, w, victim, pane)
    case Writing(victim, found, after) =>
      && AfterCoherent(c, w, after)
      && (found.Some? ==> HandCoherent(c, w, victim, found.value) && found.value in w.conv && found.value !in w.live)
    case Launching(goal) => GoalCoherent(c, w, goal)
    case Tagging(goal, pane, resumed, native) => GoalCoherent(c, w, goal) && StartedCoherent(c, w, goal, pane, resumed, native)
    case Closing(x, pane) => HandCoherent(c, w, x, pane)
    case Unseating(x, pane) => HandCoherent(c, w, x, pane)
    case _ => true
  }

  /** A stale retry past the end of its turn, working without the creation lock. */
  predicate Window(phase: Phase) {
    phase.StaleKilling? || phase.StaleUnseating? || phase.StaleBurying? || phase.StaleWriting?
  }

  predicate TurnCoherent(c: Catalog, w: World, t: TurnId, turn: Turn) {
    && turn.x in w.home
    && (turn.hasSystemPrompt ==> turn.included || Heard(w, turn.x, turn.pane))
    && (turn.accepted ==> turn.sent)
    && (turn.sent && turn.included ==> Heard(w, turn.x, turn.pane))
    && (turn.phase.StaleWriting? && turn.phase.found.Some? ==> turn.phase.found.value in w.conv && turn.phase.found.value !in w.live)
    && (Wants(c, turn.x) && TurnProtocol.Active(turn.phase) ==>
          AtHome(w, turn.x, turn.pane) && c[turn.x].turn == Some(t) && turn.hasSystemPrompt)
  }

  ghost predicate TurnsCoherent(c: Catalog, w: World, talk: Talk) {
    forall t :: t in talk.turns ==> TurnCoherent(c, w, t, talk.turns[t])
  }

  ghost predicate PromptOk(s: State) {
    && Coherent(s.catalog, s.world)
    && CreatorCoherent(s.catalog, s.world, s.creator)
    && TurnsCoherent(s.catalog, s.world, s.talk)
  }

  /** A stale retry about to record a misfit for its session. */
  predicate HoldsMisfit(s: State, t: TurnId) {
    && t in s.talk.turns && s.talk.turns[t].phase.StaleWriting? && s.talk.turns[t].phase.found.Some?
    && Wants(s.catalog, s.talk.turns[t].x)
    && Misfit(s.world, s.talk.turns[t].x, s.talk.turns[t].phase.found.value)
  }

  /** The code does not check what it records: a stale retry writes the grave without the creation lock. */
  predicate RecordsMisfit(s: State, a: Action) {
    a.Play? && a.turn.WriteStaleGrave? && HoldsMisfit(s, a.t)
  }

  // ---- what a step leaves alone ----

  ghost predicate Grows(w: World, v: World) {
    && w.home.Keys <= v.home.Keys
    && (forall p :: p in w.conv ==> p in v.conv && v.conv[p] == w.conv[p])
    && w.heard <= v.heard
    && (forall p :: p in w.conv && p !in w.live ==> p !in v.live && (p in v.yard.named <==> p in w.yard.named))
  }

  /** Sessions known before that still want their system prompt kept their turn and their conversation. */
  ghost predicate Calm(c: Catalog, w: World, d: Catalog, v: World) {
    forall x :: x in w.home && Wants(d, x) ==>
      Wants(c, x) && d[x].turn == c[x].turn && x in v.home && v.home[x] == w.home[x]
  }

  lemma TurnsStay(c: Catalog, w: World, talk: Talk, d: Catalog, v: World)
    requires TurnsCoherent(c, w, talk) && Grows(w, v) && Calm(c, w, d, v)
    ensures TurnsCoherent(d, v, talk)
  {
  }

  /** No conversation changes hands and no turn begins. */
  ghost predicate Quiet(c: Catalog, w: World, d: Catalog, v: World) {
    && Grows(w, v)
    && (forall x :: x in w.home ==> v.home[x] == w.home[x])
    && (forall x :: Wants(d, x) ==> Wants(c, x))
    && (forall x :: x in d && d[x].turn.Some? ==> x in c && c[x].turn.Some?)
  }

  lemma CreatorStays(c: Catalog, w: World, d: Catalog, v: World, creator: Creator)
    requires CreatorCoherent(c, w, creator) && Quiet(c, w, d, v)
    ensures CreatorCoherent(d, v, creator)
  {
  }

  // ---- each group of steps ----

  lemma PrunePrompt(s: State, panes: Snapshot)
    requires PromptOk(s) && Truthful(s, panes)
    ensures Coherent(Prune(s.catalog, panes), s.world)
    ensures Calm(s.catalog, s.world, Prune(s.catalog, panes), s.world)
    ensures Quiet(s.catalog, s.world, Prune(s.catalog, panes), s.world)
  {
    PruneKeepsNeeds(s.catalog, panes);
  }

  lemma PruneKeepsNeeds(c: Catalog, panes: Snapshot)
    ensures forall x :: Wants(Prune(c, panes), x) <==> Wants(c, x)
    ensures forall x :: x in Prune(c, panes) <==> x in c
    ensures forall x :: x in c ==> Prune(c, panes)[x].turn == c[x].turn
  {
  }

  lemma ResidencyPrompt(max: nat, s: State, m: ResidencyMove, s': State)
    requires PromptOk(s) && ResidencyStep(max, s, m) == Some(s')
    ensures PromptOk(s')
  {
    if m.PrunePanes? {
      PrunePrompt(s, m.panes);
      CreatorStays(s.catalog, s.world, s'.catalog, s'.world, s.creator);
      TurnsStay(s.catalog, s.world, s.talk, s'.catalog, s'.world);
    } else {
      ResidencyCreator(max, s, m, s');
    }
  }

  lemma ResidencyCreator(max: nat, s: State, m: ResidencyMove, s': State)
    requires PromptOk(s) && !m.PrunePanes? && ResidencyStep(max, s, m) == Some(s')
    ensures s'.catalog == s.catalog && s'.talk == s.talk && s'.world == s.world.(live := s'.world.live, yard := s'.world.yard)
    ensures CreatorCoherent(s'.catalog, s'.world, s'.creator)
  {
  }

  lemma EvictionPrompt(s: State, m: EvictionMove, s': State)
    requires PromptOk(s) && EvictionStep(s, m) == Some(s')
    ensures PromptOk(s')
  {
    EvictionCoherent(s, m, s');
    TurnsStay(s.catalog, s.world, s.talk, s'.catalog, s'.world);
  }

  lemma EvictionCoherent(s: State, m: EvictionMove, s': State)
    requires PromptOk(s) && EvictionStep(s, m) == Some(s')
    ensures Coherent(s'.catalog, s'.world) && CreatorCoherent(s'.catalog, s'.world, s'.creator)
    ensures Grows(s.world, s'.world) && Calm(s.catalog, s.world, s'.catalog, s'.world) && s'.talk == s.talk
  {
    if m.WriteGrave? {
      WriteCoherent(s, m, s');
    } else {
      VictimCoherent(s, m, s');
    }
  }

  lemma WriteCoherent(s: State, m: EvictionMove, s': State)
    requires PromptOk(s) && m.WriteGrave? && EvictionStep(s, m) == Some(s')
    ensures Coherent(s'.catalog, s'.world) && CreatorCoherent(s'.catalog, s'.world, s'.creator)
    ensures Grows(s.world, s'.world) && Calm(s.catalog, s.world, s'.catalog, s'.world) && s'.talk == s.talk
  {
  }

  lemma VictimCoherent(s: State, m: EvictionMove, s': State)
    requires PromptOk(s) && !m.WriteGrave? && EvictionStep(s, m) == Some(s')
    ensures Coherent(s'.catalog, s'.world) && CreatorCoherent(s'.catalog, s'.world, s'.creator)
    ensures Grows(s.world, s'.world) && Calm(s.catalog, s.world, s'.catalog, s'.world) && s'.talk == s.talk
  {
    if m.VictimKilled? {
      KilledCoherent(s, m, s');
    }
  }

  lemma KilledCoherent(s: State, m: EvictionMove, s': State)
    requires PromptOk(s) && m.VictimKilled? && EvictionStep(s, m) == Some(s')
    ensures Coherent(s'.catalog, s'.world) && CreatorCoherent(s'.catalog, s'.world, s'.creator)
    ensures Grows(s.world, s'.world) && Calm(s.catalog, s.world, s'.catalog, s'.world) && s'.talk == s.talk
  {
  }

  lemma LaunchPrompt(s: State, m: LaunchMove, s': State)
    requires PromptOk(s) && LaunchStep(s, m) == Some(s')
    ensures PromptOk(s')
  {
    LaunchCoherent(s, m, s');
    if m.Attach? && s.creator.goal.Restore? {
      RestartKeepsTurns(s, m, s');
    } else {
      LaunchCalm(s, m, s');
      TurnsStay(s.catalog, s.world, s.talk, s'.catalog, s'.world);
    }
  }

  lemma LaunchCoherent(s: State, m: LaunchMove, s': State)
    requires PromptOk(s) && LaunchStep(s, m) == Some(s')
    ensures Coherent(s'.catalog, s'.world) && CreatorCoherent(s'.catalog, s'.world, s'.creator)
  {
    if m.Attach? {
      AttachCoherent(s, m, s');
    }
  }

  lemma AttachCoherent(s: State, m: LaunchMove, s': State)
    requires PromptOk(s) && m.Attach? && LaunchStep(s, m) == Some(s')
    ensures Coherent(s'.catalog, s'.world) && CreatorCoherent(s'.catalog, s'.world, s'.creator)
  {
  }

  lemma LaunchCalm(s: State, m: LaunchMove, s': State)
    requires PromptOk(s) && LaunchStep(s, m) == Some(s')
    requires !(m.Attach? && s.creator.goal.Restore?)
    ensures Grows(s.world, s'.world) && Calm(s.catalog, s.world, s'.catalog, s'.world) && s'.talk == s.talk
  {
    if m.Attach? {
      AttachCalm(s, m, s');
    }
  }

  lemma AttachCalm(s: State, m: LaunchMove, s': State)
    requires PromptOk(s) && m.Attach? && LaunchStep(s, m) == Some(s')
    requires !s.creator.goal.Restore?
    ensures Grows(s.world, s'.world) && Calm(s.catalog, s.world, s'.catalog, s'.world) && s'.talk == s.talk
  {
  }

  lemma RestartKeepsTurns(s: State, m: LaunchMove, s': State)
    requires PromptOk(s) && LaunchStep(s, m) == Some(s')
    requires m.Attach? && s.creator.goal.Restore?
    ensures TurnsCoherent(s'.catalog, s'.world, s'.talk)
  {
  }

  lemma ErrandPrompt(s: State, m: ErrandMove, s': State)
    requires PromptOk(s) && ErrandStep(s, m) == Some(s')
    ensures PromptOk(s')
  {
    ErrandCoherent(s, m, s');
    if m.Begin? {
      BeginKeepsTurns(s, m, s');
    } else {
      TurnsStay(s.catalog, s.world, s.talk, s'.catalog, s'.world);
    }
  }

  lemma ErrandCoherent(s: State, m: ErrandMove, s': State)
    requires PromptOk(s) && ErrandStep(s, m) == Some(s')
    ensures Coherent(s'.catalog, s'.world) && CreatorCoherent(s'.catalog, s'.world, s'.creator)
    ensures Grows(s.world, s'.world)
    ensures !m.Begin? ==> Calm(s.catalog, s.world, s'.catalog, s'.world) && s'.talk == s.talk
  {
    if m.Begin? {
      BeginCoherent(s, m, s');
    } else if IsClosing(m) {
      ClosingCoherent(s, m, s');
    } else {
      DeletionCoherent(s, m, s');
    }
  }

  predicate IsClosing(m: ErrandMove) {
    m.RefreshClosing? || m == KillClosing || m == UnseatClosing
  }

  lemma ClosingCoherent(s: State, m: ErrandMove, s': State)
    requires PromptOk(s) && IsClosing(m) && ErrandStep(s, m) == Some(s')
    ensures Coherent(s'.catalog, s'.world) && CreatorCoherent(s'.catalog, s'.world, s'.creator)
    ensures Grows(s.world, s'.world) && Calm(s.catalog, s.world, s'.catalog, s'.world) && s'.talk == s.talk
  {
  }

  lemma DeletionCoherent(s: State, m: ErrandMove, s': State)
    requires PromptOk(s) && !IsClosing(m) && !m.Begin? && ErrandStep(s, m) == Some(s')
    ensures Coherent(s'.catalog, s'.world) && CreatorCoherent(s'.catalog, s'.world, s'.creator)
    ensures Grows(s.world, s'.world) && Calm(s.catalog, s.world, s'.catalog, s'.world) && s'.talk == s.talk
  {
  }

  lemma BeginCoherent(s: State, m: ErrandMove, s': State)
    requires PromptOk(s) && m.Begin? && ErrandStep(s, m) == Some(s')
    ensures Coherent(s'.catalog, s'.world) && CreatorCoherent(s'.catalog, s'.world, s'.creator)
    ensures s'.world == s.world
  {
  }

  lemma BeginKeepsTurns(s: State, m: ErrandMove, s': State)
    requires PromptOk(s) && m.Begin? && ErrandStep(s, m) == Some(s')
    ensures TurnsCoherent(s'.catalog, s'.world, s'.talk)
  {
  }

  lemma SweepPrompt(max: nat, s: State, m: SweepMove, s': State)
    requires PromptOk(s) && SweepStep(max, s, m) == Some(s')
    ensures PromptOk(s')
  {
    SweepCoherent(max, s, m, s');
    TurnsStay(s.catalog, s.world, s.talk, s'.catalog, s'.world);
  }

  lemma SweepCoherent(max: nat, s: State, m: SweepMove, s': State)
    requires PromptOk(s) && SweepStep(max, s, m) == Some(s')
    ensures Coherent(s'.catalog, s'.world) && CreatorCoherent(s'.catalog, s'.world, s'.creator)
    ensures Grows(s.world, s'.world) && Calm(s.catalog, s.world, s'.catalog, s'.world) && s'.talk == s.talk
  {
  }

  lemma TurnPrompt(s: State, t: TurnId, m: TurnMove, s': State)
    requires PromptOk(s) && !RecordsMisfit(s, Play(t, m)) && t in s.talk.turns && TurnStep(s, t, m) == Some(s')
    ensures PromptOk(s')
  {
    TurnKeepsSessions(s, t, m, s');
    if m == Clear {
      ClearKeepsTurns(s, t, s');
    } else {
      TurnIsCalm(s, t, m, s');
      TurnsStay(s.catalog, s.world, s.talk, s'.catalog, s'.world);
      TurnKeepsTurns(s, t, m, s');
    }
    CreatorStays(s.catalog, s.world, s'.catalog, s'.world, s.creator);
  }

  lemma TurnKeepsSessions(s: State, t: TurnId, m: TurnMove, s': State)
    requires PromptOk(s) && !RecordsMisfit(s, Play(t, m)) && t in s.talk.turns && TurnStep(s, t, m) == Some(s')
    ensures Coherent(s'.catalog, s'.world)
  {
    if RetriesStale(m) {
      StaleKeepsSessions(s, t, m, s');
    } else {
      PlayKeepsSessions(s, t, m, s');
    }
  }

  predicate RetriesStale(m: TurnMove) {
    m.KillStale? || m == UnseatStale || m.FetchStaleGrave? || m.WriteStaleGrave?
  }

  lemma StaleKeepsSessions(s: State, t: TurnId, m: TurnMove, s': State)
    requires PromptOk(s) && !RecordsMisfit(s, Play(t, m)) && t in s.talk.turns && TurnStep(s, t, m) == Some(s')
    requires RetriesStale(m)
    ensures Coherent(s'.catalog, s'.world)
  {
  }

  lemma PlayKeepsSessions(s: State, t: TurnId, m: TurnMove, s': State)
    requires PromptOk(s) && t in s.talk.turns && TurnStep(s, t, m) == Some(s') && !RetriesStale(m)
    ensures Coherent(s'.catalog, s'.world)
  {
  }

  lemma TurnIsCalm(s: State, t: TurnId, m: TurnMove, s': State)
    requires t in s.talk.turns && m != Clear && TurnStep(s, t, m) == Some(s')
    ensures Grows(s.world, s'.world) && Calm(s.catalog, s.world, s'.catalog, s'.world)
    ensures Quiet(s.catalog, s.world, s'.catalog, s'.world) && s'.creator == s.creator
  {
    TurnGrows(s, t, m, s');
  }

  lemma TurnGrows(s: State, t: TurnId, m: TurnMove, s': State)
    requires t in s.talk.turns && TurnStep(s, t, m) == Some(s')
    ensures Grows(s.world, s'.world) && s'.world.home == s.world.home && s'.creator == s.creator
  {
  }

  lemma TurnKeepsTurns(s: State, t: TurnId, m: TurnMove, s': State)
    requires Coherent(s.catalog, s.world)
    requires t in s.talk.turns && m != Clear && TurnStep(s, t, m) == Some(s')
    requires TurnsCoherent(s'.catalog, s'.world, s.talk)
    ensures TurnsCoherent(s'.catalog, s'.world, s'.talk)
  {
    forall u | u in s'.talk.turns
      ensures TurnCoherent(s'.catalog, s'.world, u, s'.talk.turns[u])
    {
      assert TurnCoherent(s'.catalog, s'.world, u, s.talk.turns[u]);
      if u == t {
        TurnKeepsItself(s, t, m, s');
      }
    }
  }

  lemma NewestGraveIsGrave(yard: Yard, x: SessionId)
    ensures NewestGrave(yard, x).Some? ==> NewestGrave(yard, x).value in yard.graves
  {
  }

  lemma TurnKeepsItself(s: State, t: TurnId, m: TurnMove, s': State)
    requires Coherent(s.catalog, s.world)
    requires t in s.talk.turns && m != Clear && TurnStep(s, t, m) == Some(s')
    requires TurnCoherent(s'.catalog, s'.world, t, s.talk.turns[t]) && t in s'.talk.turns
    ensures TurnCoherent(s'.catalog, s'.world, t, s'.talk.turns[t])
  {
    if m.FetchStaleGrave? {
      NewestGraveIsGrave(s.world.yard, s.talk.turns[t].x);
    }
  }

  lemma ClearKeepsTurns(s: State, t: TurnId, s': State)
    requires PromptOk(s) && t in s.talk.turns && ClearStep(s, t) == Some(s')
    ensures TurnsCoherent(s'.catalog, s'.world, s'.talk)
    ensures Quiet(s.catalog, s.world, s'.catalog, s'.world) && s'.creator == s.creator
  {
  }

  lemma OutsidePrompt(s: State, m: OutsideMove, s': State)
    requires PromptOk(s) && OutsideStep(s, m) == Some(s')
    ensures PromptOk(s')
  {
    OutsideIsCalm(s, m, s');
    TurnsStay(s.catalog, s.world, s.talk, s'.catalog, s'.world);
    CreatorStays(s.catalog, s.world, s'.catalog, s'.world, s.creator);
    assert TurnsCoherent(s'.catalog, s'.world, s'.talk);
  }

  lemma OutsideIsCalm(s: State, m: OutsideMove, s': State)
    requires PromptOk(s) && OutsideStep(s, m) == Some(s')
    ensures Coherent(s'.catalog, s'.world) && s'.creator == s.creator
    ensures Grows(s.world, s'.world) && Calm(s.catalog, s.world, s'.catalog, s'.world)
    ensures Quiet(s.catalog, s.world, s'.catalog, s'.world)
  {
    OutsideGrows(s, m, s');
  }

  lemma OutsideGrows(s: State, m: OutsideMove, s': State)
    requires PromptOk(s) && OutsideStep(s, m) == Some(s')
    ensures Grows(s.world, s'.world) && s'.world.home == s.world.home && s'.creator == s.creator
    ensures forall p :: p in s'.world.yard.graves ==> p in s'.world.conv && p !in s'.world.live
  {
  }

  lemma AskPrompt(s: State, m: Request, s': State)
    requires PromptOk(s) && AskStep(s, m) == Some(s')
    ensures PromptOk(s')
  {
  }

  lemma StepPrompt(max: nat, s: State, a: Action, s': State)
    requires PromptOk(s) && !RecordsMisfit(s, a) && Apply(max, s, a) == Some(s')
    ensures PromptOk(s')
  {
    match a
    case Ask(m) => AskPrompt(s, m, s');
    case Reside(m) => ResidencyPrompt(max, s, m, s');
    case Evict(m) => EvictionPrompt(s, m, s');
    case Launch(m) => LaunchPrompt(s, m, s');
    case Run(m) => ErrandPrompt(s, m, s');
    case Sweep(m) => SweepPrompt(max, s, m, s');
    case Play(t, m) => TurnPrompt(s, t, m, s');
    case Happen(m) => OutsidePrompt(s, m, s');
  }

  lemma StrayCaptureBreaks(max: nat, s: State, a: Action, s': State)
    requires RecordsMisfit(s, a) && Apply(max, s, a) == Some(s')
    ensures !PromptOk(s')
  {
    var turn := s.talk.turns[a.t];
    assert s'.catalog[turn.x].grave == turn.phase.found && s'.world == s.world;
  }

  // ---- whole runs ----

  ghost predicate PromptOkThroughout(max: nat, s: State, actions: seq<Action>)
    decreases |actions|
  {
    && PromptOk(s)
    && (actions != [] && Apply(max, s, actions[0]).Some? ==>
          PromptOkThroughout(max, Apply(max, s, actions[0]).value, actions[1..]))
  }

  ghost predicate RecordsNoMisfit(max: nat, s: State, actions: seq<Action>)
    decreases |actions|
  {
    actions != [] && Apply(max, s, actions[0]).Some? ==>
      !RecordsMisfit(s, actions[0]) && RecordsNoMisfit(max, Apply(max, s, actions[0]).value, actions[1..])
  }

  /** A run keeps every session with fitting conversations exactly when no retry of it records a misfit. */
  lemma {:induction false} CoherentIffNoMisfit(max: nat, s: State, actions: seq<Action>)
    requires PromptOk(s)
    ensures PromptOkThroughout(max, s, actions) <==> RecordsNoMisfit(max, s, actions)
    decreases |actions|
  {
    if actions != [] && Apply(max, s, actions[0]).Some? {
      var next := Apply(max, s, actions[0]).value;
      if RecordsMisfit(s, actions[0]) {
        StrayCaptureBreaks(max, s, actions[0], next);
      } else {
        StepPrompt(max, s, actions[0], next);
        CoherentIffNoMisfit(max, next, actions[1..]);
      }
    }
  }

  /** The turn is about to send a prompt without the system prompt to a conversation that has not accepted it. */
  predicate SendsBare(s: State, t: TurnId) {
    && t in s.talk.turns
    && SendStep(s, t).Some?
    && s.talk.turns[t].hasSystemPrompt
    && !s.talk.turns[t].included
    && !Heard(s.world, s.talk.turns[t].x, s.talk.turns[t].pane)
  }

  lemma {:induction false} RunPrompt(max: nat, s: State, actions: seq<Action>, s': State)
    requires PromptOk(s) && Execute(max, s, actions) == Some(s') && RecordsNoMisfit(max, s, actions)
    ensures PromptOk(s')
    decreases |actions|
  {
    if actions != [] {
      var next := Apply(max, s, actions[0]).value;
      StepPrompt(max, s, actions[0], next);
      RunPrompt(max, next, actions[1..], s');
    }
  }

  /**
   In every run from a recovered catalog in which no retry records a misfit, through evictions, dying
   panes, revivals, native resumes, restarts and stale retries, no prompt is sent bare.
   */
  lemma SystemPromptDelivered(max: nat, s: State, actions: seq<Action>, s': State, t: TurnId)
    requires Initial(max, s) && Execute(max, s, actions) == Some(s') && RecordsNoMisfit(max, s, actions)
    ensures !SendsBare(s', t)
  {
    RunPrompt(max, s, actions, s');
  }
}
