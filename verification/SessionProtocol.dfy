/**
 The ACP session protocol as a transition system.

 One action is one critical section of the adapter: what a handler does between
 two awaits. The holder of the `session_creation` lock is one handler at a time,
 so its program counter is the single field `creator`; every prompt that has
 begun a turn is an entry of `turns`, every steer in flight an entry of
 `steers`, and panes may die or appear at any moment.

 `Apply` is a function: all nondeterminism (replies of slopd, scheduling,
 fresh ids, clocks) is in the action.
 */
module SessionProtocol {
  import opened Wrappers
  import opened SessionCatalog

  type SteerId = nat

  /** What the lock holder does once its session is resident. */
  datatype Purpose = ToResume | ToDelete | ToPrompt(retried: bool)

  /** Why the lock holder needs a pane; a restore remembers what it read of the session. */
  datatype Goal =
    | Fresh(hasSystemPrompt: bool)
    | Restore(x: SessionId, purpose: Purpose, native: Option<Conversation>, grave: Option<PaneId>)

  /** What follows the burial of a pane. */
  datatype After = ForRoom(goal: Goal) | ForTrim | ForExpiry(rest: seq<SessionId>) | ForClose

  datatype Creator =
    | Free
    | Ensuring(x: SessionId, purpose: Purpose)
    | Looking(x: SessionId, purpose: Purpose)
    | MakingRoom(goal: Goal)
    | Counting(goal: Goal)
    | Choosing(after: After)
    | Taking(victim: SessionId, after: After)
    | Killing(victim: SessionId, pane: PaneId, backend: Option<Backend>, after: After)
    | Burying(victim: SessionId, pane: PaneId, after: After)
    | Writing(victim: SessionId, found: Option<PaneId>, after: After)
    | Launching(goal: Goal)
    | Tagging(goal: Goal, pane: PaneId, resumed: bool, native: Option<Conversation>)
    | Seated(x: SessionId, purpose: Purpose)
    | Deleting(x: SessionId, pane: PaneId)
    | Removing(x: SessionId)
    | Closing(x: SessionId, pane: PaneId)
    | Unseating(x: SessionId, pane: PaneId)
    | Reconciling
    | Scanning(panes: set<PaneId>)
    | Adopting(todo: set<PaneId>)
    | Expiring(rest: seq<SessionId>)
    | Trimming

  /**
   `Running` is `run_turn`; `Draining` waits for the steering permit; `Holding` has it.
   The `Stale*` phases are the retry path, which runs without the creation lock.
   */
  datatype Phase =
    | Running
    | Draining(stale: bool)
    | Holding(stale: bool)
    | StaleKilling
    | StaleUnseating
    | StaleBurying
    | StaleWriting(found: Option<PaneId>)
    | Replying

  datatype Permit = Available | HeldBySteer(steer: SteerId) | HeldByPrompt

  datatype Turn = Turn(
    x: SessionId,
    pane: PaneId,
    hasSystemPrompt: bool,
    included: bool,
    discard: bool,
    retried: bool,
    phase: Phase,
    sent: bool,
    accepted: bool,
    permit: Permit)

  /**
   What slopd records of panes: the session each is tagged with, those whose native id it
   has learned, the dead in the order of their deaths, and those revived since.
   */
  datatype Yard = Yard(tags: map<PaneId, SessionId>, named: set<PaneId>, graves: seq<PaneId>, revived: set<PaneId>)

  /**
   What the adapter cannot see: the conversation of the pane a session was attached to
   last, the conversation of every pane ever started, the panes now alive, which
   conversations have accepted the system prompt of which session, and slopd's records.
   */
  datatype World = World(
    home: map<SessionId, Conversation>,
    conv: map<PaneId, Conversation>,
    live: set<PaneId>,
    heard: set<(SessionId, Conversation)>,
    yard: Yard)

  /** The prompts that have begun a turn and the steers in flight. */
  datatype Talk = Talk(turns: map<TurnId, Turn>, steers: map<SteerId, TurnId>, nextTurn: TurnId)

  /** `excess` counts the panes adopted since the last completed trim. */
  datatype State = State(catalog: Catalog, world: World, creator: Creator, talk: Talk, excess: nat)

  /** Requests that take the creation lock. */
  datatype Request =
    | AskNew(hasSystemPrompt: bool)
    | AskResume(x: SessionId)
    | AskDelete(x: SessionId)
    | AskPrompt(x: SessionId, retried: bool)
    | AskClose(x: SessionId)
    | AskReconcile

  datatype ResidencyMove = SkipPrune | PrunePanes(panes: Snapshot) | LookUp | CountPanes | Abandon(killed: bool)

  datatype EvictionMove =
    | ChooseVictim(victim: SessionId)
    | FindNoVictim
    | TakeVictim
    | VictimKilled
    | VictimGone
    | VictimKept
    | FetchGrave(isFound: bool)
    | WriteGrave(destroyedAt: nat)

  datatype LaunchMove =
    | Revive(pane: PaneId)
    | ReviveFails
    | Start(pane: PaneId, conversation: Conversation, knowsNative: bool)
    | TagPane(id: SessionId)
    | Attach(backend: Backend, activity: nat, now: nat)

  datatype ErrandMove =
    | FinishResume(activity: nat, now: nat)
    | Begin(activity: nat, now: nat)
    | AimDelete
    | KillDeleted
    | RemoveSession
    | RefreshClosing(knowsNative: bool)
    | KillClosing
    | UnseatClosing

  datatype SweepMove =
    | ScanPanes
    | AdoptPane(x: SessionId, pane: PaneId, backend: Backend, touched: nat)
    | DiscardPane(pane: PaneId, killed: bool)
    | FinishAdoption(expired: seq<SessionId>)
    | ExpireNext
    | ForgetOld(cutoff: Option<nat>)
    | CheckTrim

  datatype TurnMove =
    | Send
    | Accept
    | MarkResumable
    | RefreshNative(knowsNative: bool)
    | SeePaneGone(knowsNative: bool)
    | End(stale: bool)
    | TakePermit
    | Clear
    | KillStale(killed: bool)
    | UnseatStale
    | FetchStaleGrave(isFound: bool)
    | WriteStaleGrave(destroyedAt: nat)
    | Reply

  datatype OutsideMove =
    | StartSteer(steer: SteerId, x: SessionId, activity: nat, now: nat)
    | FinishSteer(steer: SteerId)
    | PaneDies(pane: PaneId)
    | PaneAppears(pane: PaneId, conversation: Conversation, tag: Option<SessionId>)
    | LearnNative(pane: PaneId)

  datatype Action =
    | Ask(request: Request)
    | Reside(residency: ResidencyMove)
    | Evict(eviction: EvictionMove)
    | Launch(launch: LaunchMove)
    | Run(errand: ErrandMove)
    | Sweep(sweep: SweepMove)
    | Play(t: TurnId, turn: TurnMove)
    | Happen(outside: OutsideMove)

  /** A `ps` answer obtained while this handler holds the lock: panes still alive are in it, and it names their conversations. */
  predicate Truthful(s: State, panes: Snapshot) {
    && (forall p :: p in s.world.live && p in ResidentPanes(s.catalog) ==> p in panes)
    && (forall p :: p in panes ==>
          p in s.world.conv && (panes[p].Some? ==> p in s.world.yard.named && panes[p].value == s.world.conv[p]))
  }

  /** What slopd can tell of a pane's native id; `known` is false where the answer came too early. */
  function KnownNative(s: State, pane: PaneId, known: bool): Option<Conversation> {
    if known && pane in s.world.yard.named && pane in s.world.conv then Some(s.world.conv[pane]) else None
  }

  function Born(s: State, pane: PaneId, conversation: Conversation, named: bool): State {
    s.(world := s.world.(conv := s.world.conv[pane := conversation], live := s.world.live + {pane},
                         yard := if named then s.world.yard.(named := s.world.yard.named + {pane}) else s.world.yard))
  }

  /** A death is recorded before anyone learns of it. */
  function Died(s: State, pane: PaneId): State {
    if pane in s.world.live && pane in s.world.conv
    then s.(world := s.world.(live := s.world.live - {pane},
                              yard := s.world.yard.(graves := s.world.yard.graves + [pane])))
    else s
  }

  /** The first grave of a session that a listing, newest first and without revived ones, comes to. */
  function NewestGrave(yard: Yard, x: SessionId): Option<PaneId> {
    var k := LastWhere(yard.graves, (p: PaneId) => p in yard.tags && yard.tags[p] == x && p !in yard.revived);
    if k.Some? then Some(yard.graves[k.value]) else None
  }

  function At(s: State, creator: Creator): (r: Option<State>) {
    Some(s.(creator := creator))
  }

  function Resume(after: After): Creator {
    match after
    case ForRoom(goal) => Launching(goal)
    case ForTrim => Trimming
    case ForExpiry(rest) => Expiring(rest)
    case ForClose => Free
  }

  // ---- requests ----

  function AskStep(s: State, request: Request): Option<State> {
    if s.creator != Free then None else
    match request
    case AskNew(has) => At(s, MakingRoom(Fresh(has)))
    case AskResume(x) => if x in s.catalog then At(s, Ensuring(x, ToResume)) else None
    case AskDelete(x) => if x in s.catalog then At(s, Ensuring(x, ToDelete)) else None
    case AskPrompt(x, retried) => At(s, Ensuring(x, ToPrompt(retried)))
    case AskClose(x) =>
      if x in s.catalog && s.catalog[x].pane.Some? then At(s, Closing(x, s.catalog[x].pane.value)) else None
    case AskReconcile => At(s, Reconciling)
  }

  // ---- residency ----

  function AfterPrune(creator: Creator, panes: Snapshot): Option<Creator> {
    match creator
    case Ensuring(x, purpose) => Some(Looking(x, purpose))
    case MakingRoom(goal) => Some(Counting(goal))
    case Reconciling => Some(Scanning(panes.Keys))
    case _ => None
  }

  function PruneStep(s: State, panes: Snapshot): Option<State> {
    var next := AfterPrune(s.creator, panes);
    if next.Some? && Truthful(s, panes)
    then Some(s.(catalog := Prune(s.catalog, panes), creator := next.value))
    else None
  }

  function SkipPruneStep(s: State): Option<State> {
    if s.creator.Ensuring? && (s.creator.x in s.catalog ==> s.catalog[s.creator.x].pane.None?)
    then At(s, Looking(s.creator.x, s.creator.purpose))
    else None
  }

  function LookUpStep(s: State): Option<State> {
    if !s.creator.Looking? then None else
    var x, purpose := s.creator.x, s.creator.purpose;
    if x !in s.catalog then At(s, Free)
    else if s.catalog[x].pane.Some? then At(s, Seated(x, purpose))
    else if s.catalog[x].turn.Some? then At(s, Free)
    else At(s, MakingRoom(Restore(x, purpose, s.catalog[x].native, s.catalog[x].grave)))
  }

  function CountStep(max: nat, s: State): Option<State> {
    if !s.creator.Counting? then None
    else if |Residents(s.catalog)| < max then At(s, Launching(s.creator.goal))
    else At(s, Choosing(ForRoom(s.creator.goal)))
  }

  /** Starting or tagging failed, or a later step of a delete, close or adoption did: the request ends. */
  function AbandonStep(s: State, killed: bool): Option<State> {
    match s.creator
    case Ensuring(_, _) => At(s, Free)
    case MakingRoom(_) => At(s, Free)
    case Launching(_) => At(s, Free)
    case Tagging(_, pane, _, _) => At(if killed then Died(s, pane) else s, Free)
    case Deleting(_, _) => At(s, Free)
    case Closing(_, _) => At(s, Free)
    case Reconciling => At(s, Free)
    case Adopting(_) => At(s, Free)
    case _ => None
  }

  function ResidencyStep(max: nat, s: State, m: ResidencyMove): Option<State> {
    match m
    case SkipPrune => SkipPruneStep(s)
    case PrunePanes(panes) => PruneStep(s, panes)
    case LookUp => LookUpStep(s)
    case CountPanes => CountStep(max, s)
    case Abandon(killed) => AbandonStep(s, killed)
  }

  // ---- eviction ----

  predicate LeastUsed(c: Catalog, victim: SessionId) {
    victim in Idle(c) && forall y :: y in Idle(c) ==> c[victim].lastUsed <= c[y].lastUsed
  }

  function ChooseStep(s: State, victim: SessionId): Option<State> {
    if s.creator.Choosing? && LeastUsed(s.catalog, victim) then At(s, Taking(victim, s.creator.after)) else None
  }

  function FindNoVictimStep(s: State): Option<State> {
    if s.creator.Choosing? && Idle(s.catalog) == {} then At(s, Free) else None
  }

  /** A victim that lost its pane since it was selected makes the handler panic; the lock is then free again. */
  function TakeStep(s: State): Option<State> {
    if !s.creator.Taking? then None
    else if !Takeable(s.catalog, s.creator.victim) then At(s, Free)
    else
      var v, victim := s.creator.victim, s.catalog[s.creator.victim];
      Some(s.(catalog := Take(s.catalog, v), creator := Killing(v, victim.pane.value, victim.backend, s.creator.after)))
  }

  function KilledStep(s: State): Option<State> {
    if s.creator.Killing?
    then At(Died(s, s.creator.pane), Burying(s.creator.victim, s.creator.pane, s.creator.after))
    else None
  }

  function GoneStep(s: State): Option<State> {
    if s.creator.Killing? && s.creator.pane !in s.world.live
    then At(s, Burying(s.creator.victim, s.creator.pane, s.creator.after))
    else None
  }

  function KeptStep(s: State): Option<State> {
    if s.creator.Killing?
    then Some(s.(catalog := PutBack(s.catalog, s.creator.victim, s.creator.pane, s.creator.backend), creator := Free))
    else None
  }

  /** The newest grave of a session whose pane was just killed is that pane's. */
  function FetchStep(s: State, isFound: bool): Option<State> {
    if s.creator.Burying? && (isFound ==> NewestGrave(s.world.yard, s.creator.victim) == Some(s.creator.pane))
    then At(s, Writing(s.creator.victim, if isFound then Some(s.creator.pane) else None, s.creator.after))
    else None
  }

  function WriteStep(s: State, destroyedAt: nat): Option<State> {
    if !s.creator.Writing? then None else
    var g := s.creator.found;
    var c := if g.Some?
             then Capture(s.catalog, s.creator.victim, g.value, KnownNative(s, g.value, true), destroyedAt)
             else s.catalog;
    Some(s.(catalog := c, creator := Resume(s.creator.after)))
  }

  function EvictionStep(s: State, m: EvictionMove): Option<State> {
    match m
    case ChooseVictim(victim) => ChooseStep(s, victim)
    case FindNoVictim => FindNoVictimStep(s)
    case TakeVictim => TakeStep(s)
    case VictimKilled => KilledStep(s)
    case VictimGone => GoneStep(s)
    case VictimKept => KeptStep(s)
    case FetchGrave(isFound) => FetchStep(s, isFound)
    case WriteGrave(at) => WriteStep(s, at)
  }

  // ---- panes ----

  /** slopd refuses to revive a grave without a native id; the revived pane has it. */
  function ReviveStep(s: State, pane: PaneId): Option<State> {
    if !s.creator.Launching? || !s.creator.goal.Restore? || s.creator.goal.grave.None? then None else
    var g := s.creator.goal.grave.value;
    if g !in s.world.conv || g !in s.world.yard.named || pane in s.world.conv then None
    else
      var born := Born(s, pane, s.world.conv[g], true);
      At(born.(world := born.world.(yard := born.world.yard.(revived := born.world.yard.revived + {g}))),
         Tagging(s.creator.goal, pane, true, Some(s.world.conv[g])))
  }

  function ReviveFailsStep(s: State): Option<State> {
    if s.creator.Launching? && s.creator.goal.Restore? && s.creator.goal.grave.Some?
    then At(s, Launching(s.creator.goal.(grave := None)))
    else None
  }

  /** A pane starts on the native id to resume, or else on a conversation of its own. */
  function StartStep(s: State, pane: PaneId, conversation: Conversation, knows: bool): Option<State> {
    if !s.creator.Launching? || pane in s.world.conv || (s.creator.goal.Restore? && s.creator.goal.grave.Some?) then None
    else
      var resumed := s.creator.goal.Restore? && s.creator.goal.native.Some?;
      var c := if resumed then s.creator.goal.native.value else conversation;
      At(Born(s, pane, c, knows), Tagging(s.creator.goal, pane, resumed, if knows then Some(c) else None))
  }

  /** The pane is tagged before the session has it. */
  function TagStep(s: State, id: SessionId): Option<State> {
    if s.creator.Tagging?
       && (if s.creator.goal.Restore? then id == s.creator.goal.x else id !in s.world.home && id !in s.catalog)
    then Some(s.(world := s.world.(yard := s.world.yard.(tags := s.world.yard.tags[s.creator.pane := id]))))
    else None
  }

  function AttachStep(s: State, backend: Backend, activity: nat, now: nat): Option<State> {
    if !s.creator.Tagging? then None else
    var pane, native := s.creator.pane, s.creator.native;
    if pane !in s.world.conv || pane !in s.world.yard.tags then None else
    var newId := s.world.yard.tags[pane];
    match s.creator.goal
    case Fresh(has) =>
      if newId in s.world.home || newId in s.catalog then None
      else Some(s.(catalog := Admit(s.catalog, newId, pane, backend, native, has, activity, now),
                   world := s.world.(home := s.world.home[newId := s.world.conv[pane]]),
                   creator := Free))
    case Restore(x, purpose, oldNative, _) =>
      if newId != x then None
      else if x !in s.catalog || s.catalog[x].pane.Some? then At(Died(s, pane), Free)
      else Some(s.(catalog := Reseat(s.catalog, x, pane, backend, OrElse(native, oldNative), s.creator.resumed),
                   world := s.world.(home := s.world.home[x := s.world.conv[pane]]),
                   creator := Seated(x, purpose)))
  }

  function LaunchStep(s: State, m: LaunchMove): Option<State> {
    match m
    case Revive(pane) => ReviveStep(s, pane)
    case ReviveFails => ReviveFailsStep(s)
    case Start(pane, conversation, knows) => StartStep(s, pane, conversation, knows)
    case TagPane(id) => TagStep(s, id)
    case Attach(backend, activity, now) => AttachStep(s, backend, activity, now)
  }

  // ---- what the lock holder came for ----

  function FinishResumeStep(s: State, activity: nat, now: nat): Option<State> {
    if s.creator.Seated? && s.creator.purpose == ToResume
    then Some(s.(catalog := Touch(s.catalog, s.creator.x, activity, now), creator := Free))
    else None
  }

  function NewTurn(s: State, x: SessionId, retried: bool): Turn
    requires x in s.catalog && s.catalog[x].pane.Some?
  {
    var c := s.catalog[x];
    Turn(x, c.pane.value, c.hasSystemPrompt, c.hasSystemPrompt && !c.delivered, c.pendingHistory, retried,
         Running, false, false, Available)
  }

  /** A prompt is refused while another turn is active; a session that lost its pane again makes the handler panic. */
  function BeginStep(s: State, activity: nat, now: nat): Option<State> {
    if !s.creator.Seated? || !s.creator.purpose.ToPrompt? then None else
    var x := s.creator.x;
    if x !in s.catalog || s.catalog[x].turn.Some? || s.catalog[x].pane.None? || s.catalog[x].backend.None?
    then At(s, Free)
    else Some(s.(catalog := BeginTurn(s.catalog, x, s.talk.nextTurn, activity, now),
                 talk := s.talk.(turns := s.talk.turns[s.talk.nextTurn := NewTurn(s, x, s.creator.purpose.retried)],
                                 nextTurn := s.talk.nextTurn + 1),
                 creator := Free))
  }

  function AimDeleteStep(s: State): Option<State> {
    if !s.creator.Seated? || s.creator.purpose != ToDelete then None else
    var x := s.creator.x;
    if x !in s.catalog || s.catalog[x].pane.None? then At(s, Free)
    else At(s, Deleting(x, s.catalog[x].pane.value))
  }

  function KillDeletedStep(s: State): Option<State> {
    if s.creator.Deleting? then At(Died(s, s.creator.pane), Removing(s.creator.x)) else None
  }

  function RemoveStep(s: State): Option<State> {
    if s.creator.Removing? then Some(s.(catalog := s.catalog - {s.creator.x}, creator := Free)) else None
  }

  function RefreshClosingStep(s: State, known: bool): Option<State> {
    if s.creator.Closing?
    then Some(s.(catalog := CaptureNative(s.catalog, s.creator.x, s.creator.pane, KnownNative(s, s.creator.pane, known))))
    else None
  }

  function KillClosingStep(s: State): Option<State> {
    if s.creator.Closing? then At(Died(s, s.creator.pane), Unseating(s.creator.x, s.creator.pane)) else None
  }

  function UnseatClosingStep(s: State): Option<State> {
    if s.creator.Unseating?
    then Some(s.(catalog := MarkGone(s.catalog, s.creator.x, s.creator.pane, None),
                 creator := Burying(s.creator.x, s.creator.pane, ForClose)))
    else None
  }

  function ErrandStep(s: State, m: ErrandMove): Option<State> {
    match m
    case FinishResume(activity, now) => FinishResumeStep(s, activity, now)
    case Begin(activity, now) => BeginStep(s, activity, now)
    case AimDelete => AimDeleteStep(s)
    case KillDeleted => KillDeletedStep(s)
    case RemoveSession => RemoveStep(s)
    case RefreshClosing(known) => RefreshClosingStep(s, known)
    case KillClosing => KillClosingStep(s)
    case UnseatClosing => UnseatClosingStep(s)
  }

  // ---- periodic reconciliation ----

  function ScanStep(s: State): Option<State> {
    if s.creator.Scanning? then At(s, Adopting(s.creator.panes - ResidentPanes(s.catalog))) else None
  }

  /** slopd restores a pane of a session with the conversation that session had. */
  function AdoptStep(s: State, x: SessionId, pane: PaneId, backend: Backend, touched: nat): Option<State> {
    if s.creator.Adopting? && pane in s.creator.todo && pane in s.world.conv
       && pane in s.world.yard.named && pane in s.world.yard.tags && s.world.yard.tags[pane] == x
       && (x in s.catalog ==> s.catalog[x].pane.None? && x in s.world.home && s.world.home[x] == s.world.conv[pane])
    then Some(s.(catalog := Adopt(s.catalog, x, pane, backend, s.world.conv[pane], touched),
                 world := s.world.(home := s.world.home[x := s.world.conv[pane]]),
                 creator := Adopting(s.creator.todo - {pane}),
                 excess := s.excess + 1))
    else None
  }

  function DiscardStep(s: State, pane: PaneId, killed: bool): Option<State> {
    if s.creator.Adopting? && pane in s.creator.todo
    then At(if killed then Died(s, pane) else s, Adopting(s.creator.todo - {pane}))
    else None
  }

  function FinishAdoptionStep(s: State, expired: seq<SessionId>): Option<State> {
    if s.creator.Adopting? && (forall x :: x in expired ==> x in Idle(s.catalog))
       && (forall i, j :: 0 <= i < j < |expired| ==> expired[i] != expired[j])
    then At(s, Expiring(expired)) else None
  }

  function ExpireStep(s: State): Option<State> {
    if s.creator.Expiring? && s.creator.rest != []
    then At(s, Taking(s.creator.rest[0], ForExpiry(s.creator.rest[1..])))
    else None
  }

  function ForgetStep(s: State, cutoff: Option<nat>): Option<State> {
    if s.creator.Expiring? && s.creator.rest == []
    then Some(s.(catalog := if cutoff.Some? then Retain(s.catalog, cutoff.value) else s.catalog, creator := Trimming))
    else None
  }

  function TrimStep(max: nat, s: State): Option<State> {
    if !s.creator.Trimming? then None
    else if |Residents(s.catalog)| <= max then Some(s.(creator := Free, excess := 0))
    else At(s, Choosing(ForTrim))
  }

  function SweepStep(max: nat, s: State, m: SweepMove): Option<State> {
    match m
    case ScanPanes => ScanStep(s)
    case AdoptPane(x, pane, backend, touched) => AdoptStep(s, x, pane, backend, touched)
    case DiscardPane(pane, killed) => DiscardStep(s, pane, killed)
    case FinishAdoption(expired) => FinishAdoptionStep(s, expired)
    case ExpireNext => ExpireStep(s)
    case ForgetOld(cutoff) => ForgetStep(s, cutoff)
    case CheckTrim => TrimStep(max, s)
  }

  // ---- turns ----

  function SetTurn(s: State, t: TurnId, turn: Turn): State {
    s.(talk := s.talk.(turns := s.talk.turns[t := turn]))
  }

  /** slopd accepts the prompt for a live pane; the handler may never learn of it. */
  function SendStep(s: State, t: TurnId): Option<State>
    requires t in s.talk.turns
  {
    var turn := s.talk.turns[t];
    if turn.phase == Running && !turn.sent && turn.pane in s.world.live && turn.pane in s.world.conv
    then Some(SetTurn(s, t, turn.(sent := true))
              .(world := s.world.(heard := if turn.included
                                           then s.world.heard + {(turn.x, s.world.conv[turn.pane])}
                                           else s.world.heard)))
    else None
  }

  function AcceptStep(s: State, t: TurnId): Option<State>
    requires t in s.talk.turns
  {
    if s.talk.turns[t].phase == Running && s.talk.turns[t].sent then Some(SetTurn(s, t, s.talk.turns[t].(accepted := true))) else None
  }

  function MarkResumableStep(s: State, t: TurnId): Option<State>
    requires t in s.talk.turns
  {
    if s.talk.turns[t].phase == Running && s.talk.turns[t].accepted
    then Some(s.(catalog := Deliver(s.catalog, s.talk.turns[t].x)))
    else None
  }

  function RefreshNativeStep(s: State, t: TurnId, known: bool): Option<State>
    requires t in s.talk.turns
  {
    var turn := s.talk.turns[t];
    if turn.phase == Running && turn.accepted
    then Some(s.(catalog := CaptureNative(s.catalog, turn.x, turn.pane, KnownNative(s, turn.pane, known))))
    else None
  }

  function SeePaneGoneStep(s: State, t: TurnId, known: bool): Option<State>
    requires t in s.talk.turns
  {
    var turn := s.talk.turns[t];
    if turn.phase == Running && turn.accepted
    then Some(s.(catalog := MarkGone(s.catalog, turn.x, turn.pane, KnownNative(s, turn.pane, known))))
    else None
  }

  function EndStep(s: State, t: TurnId, stale: bool): Option<State>
    requires t in s.talk.turns
  {
    if s.talk.turns[t].phase == Running then Some(SetTurn(s, t, s.talk.turns[t].(phase := Draining(stale)))) else None
  }

  function TakePermitStep(s: State, t: TurnId): Option<State>
    requires t in s.talk.turns
  {
    var turn := s.talk.turns[t];
    if turn.phase.Draining? && turn.permit == Available
    then Some(SetTurn(s, t, turn.(phase := Holding(turn.phase.stale), permit := HeldByPrompt)))
    else None
  }

  function ClearStep(s: State, t: TurnId): Option<State>
    requires t in s.talk.turns
  {
    var turn := s.talk.turns[t];
    if !turn.phase.Holding? then None else
    var retries := turn.phase.stale && !turn.accepted && !turn.retried;
    Some(SetTurn(s, t, turn.(phase := if retries then StaleKilling else Replying))
         .(catalog := ClearTurn(s.catalog, turn.x, t, turn.included, turn.discard, turn.accepted)))
  }

  function KillStaleStep(s: State, t: TurnId, killed: bool): Option<State>
    requires t in s.talk.turns
  {
    var turn := s.talk.turns[t];
    if turn.phase == StaleKilling
    then Some(SetTurn(if killed then Died(s, turn.pane) else s, t, turn.(phase := StaleUnseating)))
    else None
  }

  function UnseatStaleStep(s: State, t: TurnId): Option<State>
    requires t in s.talk.turns
  {
    var turn := s.talk.turns[t];
    if turn.phase == StaleUnseating
    then Some(SetTurn(s, t, turn.(phase := StaleBurying)).(catalog := MarkGone(s.catalog, turn.x, turn.pane, None)))
    else None
  }

  /** The grave found is the newest of the session, whichever of its panes that buried. */
  function FetchStaleStep(s: State, t: TurnId, isFound: bool): Option<State>
    requires t in s.talk.turns
  {
    var turn := s.talk.turns[t];
    if turn.phase == StaleBurying
    then Some(SetTurn(s, t, turn.(phase := StaleWriting(if isFound then NewestGrave(s.world.yard, turn.x) else None))))
    else None
  }

  /** The retry ends here; it goes on as a new `AskPrompt(x, true)`. */
  function WriteStaleStep(s: State, t: TurnId, destroyedAt: nat): Option<State>
    requires t in s.talk.turns
  {
    var turn := s.talk.turns[t];
    if !turn.phase.StaleWriting? then None else
    var g := turn.phase.found;
    var c := if g.Some? then Capture(s.catalog, turn.x, g.value, KnownNative(s, g.value, true), destroyedAt) else s.catalog;
    Some(s.(talk := s.talk.(turns := s.talk.turns - {t}), catalog := c))
  }

  function ReplyStep(s: State, t: TurnId): Option<State>
    requires t in s.talk.turns
  {
    if s.talk.turns[t].phase == Replying then Some(s.(talk := s.talk.(turns := s.talk.turns - {t}))) else None
  }

  function TurnStep(s: State, t: TurnId, m: TurnMove): Option<State>
    requires t in s.talk.turns
  {
    match m
    case Send => SendStep(s, t)
    case Accept => AcceptStep(s, t)
    case MarkResumable => MarkResumableStep(s, t)
    case RefreshNative(known) => RefreshNativeStep(s, t, known)
    case SeePaneGone(known) => SeePaneGoneStep(s, t, known)
    case End(stale) => EndStep(s, t, stale)
    case TakePermit => TakePermitStep(s, t)
    case Clear => ClearStep(s, t)
    case KillStale(killed) => KillStaleStep(s, t, killed)
    case UnseatStale => UnseatStaleStep(s, t)
    case FetchStaleGrave(isFound) => FetchStaleStep(s, t, isFound)
    case WriteStaleGrave(at) => WriteStaleStep(s, t, at)
    case Reply => ReplyStep(s, t)
  }

  // ---- steers and the environment ----

  /** The steer takes the permit of the session's active turn, if it is free and the session has a pane. */
  function StartSteerStep(s: State, k: SteerId, x: SessionId, activity: nat, now: nat): Option<State> {
    if k in s.talk.steers || x !in s.catalog || s.catalog[x].turn.None? || s.catalog[x].pane.None? then None else
    var t := s.catalog[x].turn.value;
    if t !in s.talk.turns || s.talk.turns[t].permit != Available then None
    else Some(s.(talk := s.talk.(turns := s.talk.turns[t := s.talk.turns[t].(permit := HeldBySteer(k))],
                                 steers := s.talk.steers[k := t]),
                 catalog := Touch(s.catalog, x, activity, now)))
  }

  /** The outcome has been sent; dropping the permit ends the steer. */
  function FinishSteerStep(s: State, k: SteerId): Option<State> {
    if k !in s.talk.steers || s.talk.steers[k] !in s.talk.turns then None else
    var t := s.talk.steers[k];
    Some(s.(talk := s.talk.(turns := s.talk.turns[t := s.talk.turns[t].(permit := Available)],
                            steers := s.talk.steers - {k})))
  }

  /** slopd restores a pane, with its tag and its native id if it has a tag. */
  function AppearStep(s: State, pane: PaneId, conversation: Conversation, tag: Option<SessionId>): Option<State> {
    if pane in s.world.conv then None
    else
      var born := Born(s, pane, conversation, tag.Some?);
      Some(if tag.None? then born
           else born.(world := born.world.(yard := born.world.yard.(tags := born.world.yard.tags[pane := tag.value]))))
  }

  function OutsideStep(s: State, m: OutsideMove): Option<State> {
    match m
    case StartSteer(k, x, activity, now) => StartSteerStep(s, k, x, activity, now)
    case FinishSteer(k) => FinishSteerStep(s, k)
    case PaneDies(pane) => Some(Died(s, pane))
    case PaneAppears(pane, c, tag) => AppearStep(s, pane, c, tag)
    case LearnNative(pane) =>
      if pane in s.world.live
      then Some(s.(world := s.world.(yard := s.world.yard.(named := s.world.yard.named + {pane})))) else None
  }

  /** `None` when the action is not enabled. */
  function Apply(max: nat, s: State, a: Action): Option<State> {
    match a
    case Ask(request) => AskStep(s, request)
    case Reside(m) => ResidencyStep(max, s, m)
    case Evict(m) => EvictionStep(s, m)
    case Launch(m) => LaunchStep(s, m)
    case Run(m) => ErrandStep(s, m)
    case Sweep(m) => SweepStep(max, s, m)
    case Play(t, m) => if t in s.talk.turns then TurnStep(s, t, m) else None
    case Happen(m) => OutsideStep(s, m)
  }

  function Execute(max: nat, s: State, actions: seq<Action>): Option<State>
    decreases |actions|
  {
    if actions == [] then Some(s)
    else
      var next := Apply(max, s, actions[0]);
      if next.None? then None else Execute(max, next.value, actions[1..])
  }

  /** The catalog after recovery: no turn is active, panes are distinct, and no session waits to deliver a system prompt. */
  predicate Initial(max: nat, s: State) {
    && s.creator == Free && s.talk.turns == map[] && s.talk.steers == map[] && s.excess == 0
    && |Residents(s.catalog)| <= max
    && s.world.live <= s.world.conv.Keys
    && (forall p :: p in s.world.yard.graves ==> p in s.world.conv && p !in s.world.live)
    && (forall x, y :: x in Residents(s.catalog) && y in Residents(s.catalog) && s.catalog[x].pane == s.catalog[y].pane
          ==> x == y)
    && (forall x :: x in s.catalog ==>
          var c := s.catalog[x];
          && x in s.world.home && c.turn == None && !c.hasSystemPrompt
          && (c.pane.Some? <==> c.backend.Some?)
          && (c.pane.Some? ==> c.pane.value in s.world.conv))
  }
}
