/**
 Clients whose prompts are never sent bare: those that leave a session alone while a prompt
 of it is unanswered, so that nothing attaches it to another conversation during a retry.
 */
module PatientClients {
  import opened Wrappers
  import opened SessionCatalog
  import opened SessionProtocol
  import opened SystemPrompt
  import SessionSafety

  // ---- sessions that stay where their retries left them ----

  /** Not the attachment of a session to another conversation while a stale retry of it is in its window. */
  predicate Serialized(s: State, a: Action) {
    a.Launch? && a.launch.Attach? && s.creator.Tagging? && s.creator.goal.Restore?
    && !AtHome(s.world, s.creator.goal.x, s.creator.pane) ==>
      forall t :: t in s.talk.turns && s.talk.turns[t].x == s.creator.goal.x ==> !Window(s.talk.turns[t].phase)
  }

  /** A session still in the conversation of the pane its retry killed has that conversation in its newest grave. */
  predicate FindsOwnGrave(s: State, a: Action) {
    a.Play? && a.turn == FetchStaleGrave(true) && a.t in s.talk.turns
    && AtHome(s.world, s.talk.turns[a.t].x, s.talk.turns[a.t].pane)
    && NewestGrave(s.world.yard, s.talk.turns[a.t].x).Some? ==>
      AtHome(s.world, s.talk.turns[a.t].x, NewestGrave(s.world.yard, s.talk.turns[a.t].x).value)
  }

  ghost predicate SerializedThroughout(max: nat, s: State, actions: seq<Action>)
    decreases |actions|
  {
    actions != [] && Apply(max, s, actions[0]).Some? ==>
      Serialized(s, actions[0]) && SerializedThroughout(max, Apply(max, s, actions[0]).value, actions[1..])
  }

  ghost predicate FindsOwnGraves(max: nat, s: State, actions: seq<Action>)
    decreases |actions|
  {
    actions != [] && Apply(max, s, actions[0]).Some? ==>
      FindsOwnGrave(s, actions[0]) && FindsOwnGraves(max, Apply(max, s, actions[0]).value, actions[1..])
  }

  predicate WindowHome(c: Catalog, w: World, turn: Turn) {
    Window(turn.phase) && Wants(c, turn.x) ==>
      && AtHome(w, turn.x, turn.pane)
      && (turn.phase.StaleWriting? && turn.phase.found.Some? ==> AtHome(w, turn.x, turn.phase.found.value))
  }

  /** Every session whose stale retry is in its window is still in the conversation the retry gave up, and so is the grave it found. */
  ghost predicate WindowsHome(c: Catalog, w: World, talk: Talk) {
    forall t :: t in talk.turns ==> WindowHome(c, w, talk.turns[t])
  }

  lemma WindowsStay(c: Catalog, w: World, talk: Talk, d: Catalog, v: World)
    requires TurnsCoherent(c, w, talk) && WindowsHome(c, w, talk) && Grows(w, v) && Calm(c, w, d, v)
    ensures WindowsHome(d, v, talk)
  {
  }

  lemma LaunchWindows(s: State, m: LaunchMove, s': State)
    requires PromptOk(s) && WindowsHome(s.catalog, s.world, s.talk)
    requires Serialized(s, Launch(m)) && LaunchStep(s, m) == Some(s')
    ensures WindowsHome(s'.catalog, s'.world, s'.talk)
  {
    if m.Attach? && s.creator.goal.Restore? {
      RestartWindows(s, m, s');
    } else {
      LaunchCalm(s, m, s');
      WindowsStay(s.catalog, s.world, s.talk, s'.catalog, s'.world);
    }
  }

  lemma RestartWindows(s: State, m: LaunchMove, s': State)
    requires PromptOk(s) && WindowsHome(s.catalog, s.world, s.talk)
    requires Serialized(s, Launch(m)) && LaunchStep(s, m) == Some(s')
    requires m.Attach? && s.creator.goal.Restore?
    ensures WindowsHome(s'.catalog, s'.world, s'.talk)
  {
    forall t | t in s'.talk.turns
      ensures WindowHome(s'.catalog, s'.world, s'.talk.turns[t])
    {
      assert WindowHome(s.catalog, s.world, s.talk.turns[t]);
    }
  }

  lemma ErrandWindows(s: State, m: ErrandMove, s': State)
    requires PromptOk(s) && WindowsHome(s.catalog, s.world, s.talk) && ErrandStep(s, m) == Some(s')
    ensures WindowsHome(s'.catalog, s'.world, s'.talk)
  {
    if !m.Begin? {
      ErrandCoherent(s, m, s');
      WindowsStay(s.catalog, s.world, s.talk, s'.catalog, s'.world);
    }
  }

  lemma TurnWindows(s: State, t: TurnId, m: TurnMove, s': State)
    requires PromptOk(s) && WindowsHome(s.catalog, s.world, s.talk) && t in s.talk.turns && TurnStep(s, t, m) == Some(s')
    requires FindsOwnGrave(s, Play(t, m))
    ensures WindowsHome(s'.catalog, s'.world, s'.talk)
  {
    if m == Clear {
      ClearWindows(s, t, s');
    } else {
      TurnIsCalm(s, t, m, s');
      WindowsStay(s.catalog, s.world, s.talk, s'.catalog, s'.world);
      TurnKeepsWindows(s, t, m, s');
    }
  }

  lemma ClearWindows(s: State, t: TurnId, s': State)
    requires PromptOk(s) && WindowsHome(s.catalog, s.world, s.talk) && t in s.talk.turns && ClearStep(s, t) == Some(s')
    ensures WindowsHome(s'.catalog, s'.world, s'.talk)
  {
  }

  lemma TurnKeepsWindows(s: State, t: TurnId, m: TurnMove, s': State)
    requires t in s.talk.turns && m != Clear && TurnStep(s, t, m) == Some(s')
    requires WindowsHome(s.catalog, s.world, s.talk) && WindowsHome(s'.catalog, s'.world, s.talk)
    requires FindsOwnGrave(s, Play(t, m))
    ensures WindowsHome(s'.catalog, s'.world, s'.talk)
  {
    forall u | u in s'.talk.turns
      ensures WindowHome(s'.catalog, s'.world, s'.talk.turns[u])
    {
      assert WindowHome(s'.catalog, s'.world, s.talk.turns[u]);
    }
  }

  /** Steps of the lock holder and of the environment that neither attach a pane nor begin a turn. */
  predicate Placid(a: Action) {
    a.Ask? || a.Reside? || a.Evict? || a.Sweep?
  }

  lemma PlacidIsCalm(max: nat, s: State, a: Action, s': State)
    requires PromptOk(s) && Placid(a) && Apply(max, s, a) == Some(s')
    ensures Grows(s.world, s'.world) && Calm(s.catalog, s.world, s'.catalog, s'.world) && s'.talk == s.talk
  {
    match a
    case Reside(m) => if m.PrunePanes? { PrunePrompt(s, m.panes); } else { ResidencyCreator(max, s, m, s'); }
    case Evict(m) => EvictionCoherent(s, m, s');
    case Sweep(m) => SweepCoherent(max, s, m, s');
    case _ =>
  }

  lemma StepWindows(max: nat, s: State, a: Action, s': State)
    requires PromptOk(s) && WindowsHome(s.catalog, s.world, s.talk) && Apply(max, s, a) == Some(s')
    requires Serialized(s, a) && FindsOwnGrave(s, a)
    ensures WindowsHome(s'.catalog, s'.world, s'.talk)
  {
    if Placid(a) {
      PlacidIsCalm(max, s, a, s');
      WindowsStay(s.catalog, s.world, s.talk, s'.catalog, s'.world);
    } else {
      match a
      case Launch(m) => LaunchWindows(s, m, s');
      case Run(m) => ErrandWindows(s, m, s');
      case Play(t, m) => TurnWindows(s, t, m, s');
      case Happen(m) => OutsideWindows(s, m, s');
    }
  }

  lemma OutsideWindows(s: State, m: OutsideMove, s': State)
    requires PromptOk(s) && WindowsHome(s.catalog, s.world, s.talk) && OutsideStep(s, m) == Some(s')
    ensures WindowsHome(s'.catalog, s'.world, s'.talk)
  {
    OutsideIsCalm(s, m, s');
    WindowsStay(s.catalog, s.world, s.talk, s'.catalog, s'.world);
  }

  lemma {:induction false} SerializedRecordsNoMisfit(max: nat, s: State, actions: seq<Action>)
    requires PromptOk(s) && WindowsHome(s.catalog, s.world, s.talk)
    requires SerializedThroughout(max, s, actions) && FindsOwnGraves(max, s, actions)
    ensures RecordsNoMisfit(max, s, actions)
    decreases |actions|
  {
    if actions != [] && Apply(max, s, actions[0]).Some? {
      var next := Apply(max, s, actions[0]).value;
      assert !RecordsMisfit(s, actions[0]);
      StepPrompt(max, s, actions[0], next);
      StepWindows(max, s, actions[0], next);
      SerializedRecordsNoMisfit(max, next, actions[1..]);
    }
  }

  // ---- clients that wait for their prompts ----

  /** The session the lock holder works for. */
  function GoalOf(goal: Goal): Option<SessionId> {
    if goal.Restore? then Some(goal.x) else None
  }

  function Served(creator: Creator): Option<SessionId> {
    match creator
    case Ensuring(x, _) => Some(x)
    case Looking(x, _) => Some(x)
    case MakingRoom(goal) => GoalOf(goal)
    case Counting(goal) => GoalOf(goal)
    case Choosing(after) => AfterOf(after)
    case Taking(_, after) => AfterOf(after)
    case Killing(_, _, _, after) => AfterOf(after)
    case Burying(_, _, after) => AfterOf(after)
    case Writing(_, _, after) => AfterOf(after)
    case Launching(goal) => GoalOf(goal)
    case Tagging(goal, _, _, _) => GoalOf(goal)
    case Seated(x, _) => Some(x)
    case _ => None
  }

  function AfterOf(after: After): Option<SessionId> {
    if after.ForRoom? then GoalOf(after.goal) else None
  }

  /** The session of a request that may restore one. */
  function Asked(request: Request): Option<SessionId> {
    match request
    case AskResume(x) => Some(x)
    case AskDelete(x) => Some(x)
    case AskPrompt(x, _) => Some(x)
    case _ => None
  }

  /** The request leaves alone sessions with a prompt that has not been answered, or is about to be asked again. */
  predicate Patient(s: State, a: Action) {
    a.Ask? && Asked(a.request).Some? ==>
      forall t :: t in s.talk.turns ==> s.talk.turns[t].x != Asked(a.request).value
  }

  ghost predicate PatientThroughout(max: nat, s: State, actions: seq<Action>)
    decreases |actions|
  {
    actions != [] && Apply(max, s, actions[0]).Some? ==>
      Patient(s, actions[0]) && PatientThroughout(max, Apply(max, s, actions[0]).value, actions[1..])
  }

  /** The session the lock holder works for has no prompt under way. */
  ghost predicate ServedAlone(s: State) {
    Served(s.creator).Some? ==> forall t :: t in s.talk.turns ==> s.talk.turns[t].x != Served(s.creator).value
  }

  lemma EvictionServesOn(s: State, m: EvictionMove, s': State)
    requires EvictionStep(s, m) == Some(s')
    ensures Served(s'.creator).Some? ==> s'.talk == s.talk && Served(s'.creator) == Served(s.creator)
  {
  }

  lemma HolderServesOn(max: nat, s: State, a: Action, s': State)
    requires SessionSafety.HoldsLock(a) && !a.Ask? && Apply(max, s, a) == Some(s')
    ensures Served(s'.creator).Some? ==> s'.talk == s.talk && Served(s'.creator) == Served(s.creator)
  {
    if a.Evict? {
      EvictionServesOn(s, a.eviction, s');
    }
  }

  lemma TurnSessions(s: State, t: TurnId, m: TurnMove, s': State)
    requires t in s.talk.turns && TurnStep(s, t, m) == Some(s')
    ensures s'.creator == s.creator
    ensures forall u :: u in s'.talk.turns ==> u in s.talk.turns && s'.talk.turns[u].x == s.talk.turns[u].x
  {
  }

  lemma StepServedAlone(max: nat, s: State, a: Action, s': State)
    requires ServedAlone(s) && Patient(s, a) && Apply(max, s, a) == Some(s')
    ensures ServedAlone(s')
  {
    match a
    case Ask(_) =>
    case Play(t, m) => TurnSessions(s, t, m, s');
    case Happen(m) =>
      assert s'.creator == s.creator;
      assert forall u :: u in s'.talk.turns ==> u in s.talk.turns && s'.talk.turns[u].x == s.talk.turns[u].x;
    case _ => HolderServesOn(max, s, a, s');
  }

  lemma {:induction false} PatientIsSerialized(max: nat, s: State, actions: seq<Action>)
    requires ServedAlone(s) && PatientThroughout(max, s, actions)
    ensures SerializedThroughout(max, s, actions)
    decreases |actions|
  {
    if actions != [] && Apply(max, s, actions[0]).Some? {
      var next := Apply(max, s, actions[0]).value;
      assert Serialized(s, actions[0]);
      StepServedAlone(max, s, actions[0], next);
      PatientIsSerialized(max, next, actions[1..]);
    }
  }

  /**
   A client that sends no prompt, resume or delete for a session while a prompt of it is unanswered never has a
   prompt sent bare, as long as the newest grave of a killed pane's session is that pane's.
   */
  lemma PatientClientsDeliver(max: nat, s: State, actions: seq<Action>, s': State, t: TurnId)
    requires Initial(max, s) && Execute(max, s, actions) == Some(s')
    requires PatientThroughout(max, s, actions) && FindsOwnGraves(max, s, actions)
    ensures !SendsBare(s', t)
  {
    PatientIsSerialized(max, s, actions);
    SerializedRecordsNoMisfit(max, s, actions);
    SystemPromptDelivered(max, s, actions, s', t);
  }
}
