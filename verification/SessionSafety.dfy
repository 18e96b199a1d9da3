/**
 Safety of the session protocol over every run: panes are never shared, the
 number of resident panes stays bounded, eviction leaves working sessions
 alone, logical sessions survive the loss of their panes, and trimming ends.
 */
module SessionSafety {
  import opened Wrappers
  import opened SessionCatalog
  import opened SessionProtocol

  // ---- panes ----

  /** Panes the lock holder is responsible for and that belong to no session. */
  function InHand(creator: Creator): set<PaneId> {
    match creator
    case Killing(_, pane, _, _) => {pane}
    case Tagging(_, pane, _, _) => {pane}
    case Adopting(todo) => todo
    case _ => {}
  }

  ghost predicate Distinct(c: Catalog) {
    forall x, y :: x in c && y in c && c[x].pane.Some? && c[x].pane == c[y].pane ==> x == y
  }

  ghost predicate Backed(c: Catalog) {
    forall x :: x in c ==> (c[x].pane.Some? <==> c[x].backend.Some?)
  }

  /** Every seat is in a started pane that the lock holder does not have in hand. */
  ghost predicate Seats(c: Catalog, conv: map<PaneId, Conversation>, hand: set<PaneId>) {
    forall x :: x in c && c[x].pane.Some? ==> c[x].pane.value in conv && c[x].pane.value !in hand
  }

  ghost predicate PanesOk(s: State) {
    && Distinct(s.catalog)
    && Backed(s.catalog)
    && InHand(s.creator) <= s.world.conv.Keys
    && (s.creator.Scanning? ==> s.creator.panes <= s.world.conv.Keys)
    && (s.creator.Killing? ==> s.creator.backend.Some?)
    && s.world.live <= s.world.conv.Keys
    && Seats(s.catalog, s.world.conv, InHand(s.creator))
  }

  lemma AskPanes(s: State, m: Request, s': State)
    requires PanesOk(s) && AskStep(s, m) == Some(s')
    ensures PanesOk(s')
  {
  }

  lemma ResidencyPanes(max: nat, s: State, m: ResidencyMove, s': State)
    requires PanesOk(s) && ResidencyStep(max, s, m) == Some(s')
    ensures PanesOk(s')
  {
    if m.PrunePanes? {
      PruneBacked(s.catalog, m.panes);
      PruneSeats(s.catalog, m.panes, s.world.conv, InHand(s.creator));
    }
  }

  lemma PruneBacked(c: Catalog, panes: Snapshot)
    requires Distinct(c) && Backed(c)
    ensures Distinct(Prune(c, panes)) && Backed(Prune(c, panes))
  {
  }

  lemma PruneSeats(c: Catalog, panes: Snapshot, conv: map<PaneId, Conversation>, hand: set<PaneId>)
    requires Seats(c, conv, hand)
    ensures Seats(Prune(c, panes), conv, hand)
  {
  }

  lemma EvictionPanes(s: State, m: EvictionMove, s': State)
    requires PanesOk(s) && EvictionStep(s, m) == Some(s')
    ensures PanesOk(s')
  {
  }

  lemma LaunchPanes(s: State, m: LaunchMove, s': State)
    requires PanesOk(s) && LaunchStep(s, m) == Some(s')
    ensures PanesOk(s')
  {
  }

  lemma ErrandPanes(s: State, m: ErrandMove, s': State)
    requires PanesOk(s) && ErrandStep(s, m) == Some(s')
    ensures PanesOk(s')
  {
  }

  lemma SweepPanes(max: nat, s: State, m: SweepMove, s': State)
    requires PanesOk(s) && SweepStep(max, s, m) == Some(s')
    ensures PanesOk(s')
  {
  }

  lemma TurnPanes(s: State, t: TurnId, m: TurnMove, s': State)
    requires PanesOk(s) && t in s.talk.turns && TurnStep(s, t, m) == Some(s')
    ensures PanesOk(s')
  {
  }

  lemma OutsidePanes(s: State, m: OutsideMove, s': State)
    requires PanesOk(s) && OutsideStep(s, m) == Some(s')
    ensures PanesOk(s')
  {
  }

  lemma StepPanes(max: nat, s: State, a: Action, s': State)
    requires PanesOk(s) && Apply(max, s, a) == Some(s')
    ensures PanesOk(s')
  {
    match a
    case Ask(m) => AskPanes(s, m, s');
    case Reside(m) => ResidencyPanes(max, s, m, s');
    case Evict(m) => EvictionPanes(s, m, s');
    case Launch(m) => LaunchPanes(s, m, s');
    case Run(m) => ErrandPanes(s, m, s');
    case Sweep(m) => SweepPanes(max, s, m, s');
    case Play(t, m) => TurnPanes(s, t, m, s');
    case Happen(m) => OutsidePanes(s, m, s');
  }

  // ---- the bound on resident panes ----

  /** Program counters at which room for one more pane is reserved. */
  predicate Reserved(creator: Creator) {
    || creator.Killing?
    || creator.Launching?
    || creator.Tagging?
    || (creator.Burying? && creator.after.ForRoom?)
    || (creator.Writing? && creator.after.ForRoom?)
  }

  ghost predicate Bounded(max: nat, s: State) {
    && |Residents(s.catalog)| <= max + s.excess
    && (Reserved(s.creator) ==> |Residents(s.catalog)| < max + s.excess)
  }

  lemma {:induction false} SubsetIsSmaller<T>(a: set<T>, b: set<T>)
    requires a <= b
    ensures |a| <= |b|
  {
    if a != {} {
      var x :| x in a;
      SubsetIsSmaller(a - {x}, b - {x});
    }
  }

  lemma FewerResidents(max: nat, s: State, s': State)
    requires Bounded(max, s) && s'.excess == s.excess
    requires Residents(s'.catalog) <= Residents(s.catalog)
    requires Reserved(s'.creator) ==> Reserved(s.creator)
    ensures Bounded(max, s')
  {
    SubsetIsSmaller(Residents(s'.catalog), Residents(s.catalog));
  }

  lemma TakingLowers(c: Catalog, victim: SessionId)
    requires Takeable(c, victim)
    ensures |Residents(Take(c, victim))| == |Residents(c)| - 1
  {
    assert Residents(Take(c, victim)) == Residents(c) - {victim};
    assert victim in Residents(c);
  }

  lemma OneMoreAtMost(c: Catalog, d: Catalog, x: SessionId)
    requires forall y :: y in d && y != x && d[y].pane.Some? ==> y in c && c[y].pane.Some?
    ensures |Residents(d)| <= |Residents(c)| + 1
  {
    SubsetIsSmaller(Residents(d), Residents(c) + {x});
  }

  lemma ResidencyBound(max: nat, s: State, m: ResidencyMove, s': State)
    requires Bounded(max, s) && ResidencyStep(max, s, m) == Some(s')
    ensures Bounded(max, s')
  {
    SubsetIsSmaller(Residents(s'.catalog), Residents(s.catalog));
  }

  lemma EvictionBound(max: nat, s: State, m: EvictionMove, s': State)
    requires Bounded(max, s) && EvictionStep(s, m) == Some(s')
    ensures Bounded(max, s')
  {
    if m.TakeVictim? {
      if Takeable(s.catalog, s.creator.victim) {
        TakingLowers(s.catalog, s.creator.victim);
      }
    } else if m.VictimKept? {
      OneMoreAtMost(s.catalog, s'.catalog, s.creator.victim);
    } else {
      FewerResidents(max, s, s');
    }
  }

  lemma LaunchBound(max: nat, s: State, m: LaunchMove, s': State)
    requires Bounded(max, s) && LaunchStep(s, m) == Some(s')
    ensures Bounded(max, s')
  {
    if m.Attach? {
      var x := s.world.yard.tags[s.creator.pane];
      OneMoreAtMost(s.catalog, s'.catalog, x);
    }
  }

  lemma ErrandBound(max: nat, s: State, m: ErrandMove, s': State)
    requires Bounded(max, s) && ErrandStep(s, m) == Some(s')
    ensures Bounded(max, s')
  {
    SubsetIsSmaller(Residents(s'.catalog), Residents(s.catalog));
  }

  lemma SweepBound(max: nat, s: State, m: SweepMove, s': State)
    requires Bounded(max, s) && SweepStep(max, s, m) == Some(s')
    ensures Bounded(max, s')
  {
    if m.AdoptPane? {
      OneMoreAtMost(s.catalog, s'.catalog, m.x);
    } else {
      SubsetIsSmaller(Residents(s'.catalog), Residents(s.catalog));
    }
  }

  lemma TurnBound(max: nat, s: State, t: TurnId, m: TurnMove, s': State)
    requires Bounded(max, s) && t in s.talk.turns && TurnStep(s, t, m) == Some(s')
    ensures Bounded(max, s')
  {
    SubsetIsSmaller(Residents(s'.catalog), Residents(s.catalog));
  }

  lemma OutsideBound(max: nat, s: State, m: OutsideMove, s': State)
    requires Bounded(max, s) && OutsideStep(s, m) == Some(s')
    ensures Bounded(max, s')
  {
    assert Residents(s'.catalog) == Residents(s.catalog);
  }

  lemma StepBound(max: nat, s: State, a: Action, s': State)
    requires Bounded(max, s) && Apply(max, s, a) == Some(s')
    ensures Bounded(max, s')
  {
    match a
    case Ask(m) =>
    case Reside(m) => ResidencyBound(max, s, m, s');
    case Evict(m) => EvictionBound(max, s, m, s');
    case Launch(m) => LaunchBound(max, s, m, s');
    case Run(m) => ErrandBound(max, s, m, s');
    case Sweep(m) => SweepBound(max, s, m, s');
    case Play(t, m) => TurnBound(max, s, t, m, s');
    case Happen(m) => OutsideBound(max, s, m, s');
  }

  predicate Adopts(a: Action) {
    a.Sweep? && a.sweep.AdoptPane?
  }

  predicate NeverAdopts(actions: seq<Action>) {
    forall i :: 0 <= i < |actions| ==> !Adopts(actions[i])
  }

  ghost predicate Safe(max: nat, s: State) {
    PanesOk(s) && Bounded(max, s)
  }

  lemma StepSafe(max: nat, s: State, a: Action, s': State)
    requires Safe(max, s) && Apply(max, s, a) == Some(s')
    ensures Safe(max, s')
    ensures !Adopts(a) ==> s'.excess <= s.excess
  {
    StepPanes(max, s, a, s');
    StepBound(max, s, a, s');
  }

  /**
   In every run, no pane serves two sessions, and the resident panes exceed the limit
   by at most the panes adopted since the last completed trim.
   */
  lemma {:induction false} RunSafe(max: nat, s: State, actions: seq<Action>, s': State)
    requires Safe(max, s) && Execute(max, s, actions) == Some(s')
    ensures Safe(max, s')
    ensures NeverAdopts(actions) ==> s'.excess <= s.excess
    decreases |actions|
  {
    if actions != [] {
      var next := Apply(max, s, actions[0]).value;
      StepSafe(max, s, actions[0], next);
      RunSafe(max, next, actions[1..], s');
    }
  }

  /** From a recovered catalog and without adoptions, the limit itself holds throughout. */
  lemma ResidentsWithinLimit(max: nat, s: State, actions: seq<Action>, s': State)
    requires Initial(max, s) && Execute(max, s, actions) == Some(s') && NeverAdopts(actions)
    ensures |Residents(s'.catalog)| <= max && Distinct(s'.catalog)
  {
    RunSafe(max, s, actions, s');
  }

  /** Adoption may exceed the limit; a trim that ends in success restores it until the next adoption. */
  lemma TrimRestoresLimit(max: nat, s: State, trimmed: State, actions: seq<Action>, s': State)
    requires Safe(max, s)
    requires SweepStep(max, s, CheckTrim) == Some(trimmed) && trimmed.creator == Free
    requires Execute(max, trimmed, actions) == Some(s') && NeverAdopts(actions)
    ensures |Residents(s'.catalog)| <= max
  {
    StepSafe(max, s, Sweep(CheckTrim), trimmed);
    RunSafe(max, trimmed, actions, s');
  }

  // ---- trimming ends ----

  predicate Trims(creator: Creator) {
    match creator
    case Trimming => true
    case Choosing(after) => after == ForTrim
    case Taking(_, after) => after == ForTrim
    case Killing(_, _, _, after) => after == ForTrim
    case Burying(_, _, after) => after == ForTrim
    case Writing(_, _, after) => after == ForTrim
    case _ => false
  }

  /** Six turns of the program counter for every resident pane. */
  function TrimRank(s: State): nat {
    6 * |Residents(s.catalog)| +
    match s.creator
    case Killing(_, _, _, _) => 8
    case Burying(_, _, _) => 7
    case Writing(_, _, _) => 6
    case Trimming => 5
    case Choosing(_) => 4
    case Taking(_, _) => 3
    case _ => 0
  }

  predicate HoldsLock(a: Action) {
    a.Ask? || a.Reside? || a.Evict? || a.Launch? || a.Run? || a.Sweep?
  }

  lemma TrimEvictionProgress(s: State, m: EvictionMove, s': State)
    requires Trims(s.creator) && EvictionStep(s, m) == Some(s')
    ensures s'.creator == Free || (Trims(s'.creator) && TrimRank(s') < TrimRank(s))
  {
    if m.TakeVictim? && Takeable(s.catalog, s.creator.victim) {
      TakingLowers(s.catalog, s.creator.victim);
    } else if m.WriteGrave? {
      SubsetIsSmaller(Residents(s'.catalog), Residents(s.catalog));
    }
  }

  /** Each step of a trim lowers its rank or ends it, and nothing concurrent raises the rank. */
  lemma TrimProgress(max: nat, s: State, a: Action, s': State)
    requires Trims(s.creator) && Apply(max, s, a) == Some(s')
    ensures HoldsLock(a) ==> s'.creator == Free || (Trims(s'.creator) && TrimRank(s') < TrimRank(s))
    ensures !HoldsLock(a) ==> s'.creator == s.creator && TrimRank(s') <= TrimRank(s)
  {
    match a
    case Evict(m) => TrimEvictionProgress(s, m, s');
    case Play(t, m) => TurnSeatsShrink(s, t, m, s');
    case Happen(m) => assert Residents(s'.catalog) == Residents(s.catalog);
    case _ =>
  }

  ghost predicate TrimsThroughout(max: nat, s: State, actions: seq<Action>)
    decreases |actions|
  {
    && Trims(s.creator)
    && (actions != [] ==>
          var next := Apply(max, s, actions[0]);
          next.Some? && TrimsThroughout(max, next.value, actions[1..]))
  }

  function LockSteps(actions: seq<Action>): nat {
    if actions == [] then 0 else (if HoldsLock(actions[0]) then 1 else 0) + LockSteps(actions[1..])
  }

  /** A trim takes no more steps than its rank, however turns, steers and dying panes interleave with it. */
  lemma {:induction false} TrimTerminates(max: nat, s: State, actions: seq<Action>)
    requires TrimsThroughout(max, s, actions)
    ensures LockSteps(actions) <= TrimRank(s)
    decreases |actions|
  {
    if actions != [] {
      var next := Apply(max, s, actions[0]).value;
      TrimProgress(max, s, actions[0], next);
      TrimTerminates(max, next, actions[1..]);
    }
  }

  lemma TurnSeatsShrink(s: State, t: TurnId, m: TurnMove, s': State)
    requires t in s.talk.turns && TurnStep(s, t, m) == Some(s')
    ensures |Residents(s'.catalog)| <= |Residents(s.catalog)|
  {
    SubsetIsSmaller(Residents(s'.catalog), Residents(s.catalog));
  }

  // ---- logical sessions outlive their panes ----

  predicate Forgets(a: Action) {
    (a.Run? && a.errand.RemoveSession?) || (a.Sweep? && a.sweep.ForgetOld?)
  }

  lemma StepKeepsSessions(max: nat, s: State, a: Action, s': State)
    requires Apply(max, s, a) == Some(s')
    ensures !Forgets(a) ==> s.catalog.Keys <= s'.catalog.Keys
  {
  }

  /** Only a completed delete and the retention sweep drop a session: eviction, close and the death of panes never do. */
  lemma {:induction false} SessionsSurvive(max: nat, s: State, actions: seq<Action>, s': State)
    requires Execute(max, s, actions) == Some(s')
    requires forall i :: 0 <= i < |actions| ==> !Forgets(actions[i])
    ensures s.catalog.Keys <= s'.catalog.Keys
    decreases |actions|
  {
    if actions != [] {
      var next := Apply(max, s, actions[0]).value;
      StepKeepsSessions(max, s, actions[0], next);
      SessionsSurvive(max, next, actions[1..], s');
    }
  }

  /** The retention sweep drops no session that has a pane or an active turn. */
  lemma SweepSparesUsedSessions(max: nat, s: State, m: SweepMove, s': State, x: SessionId)
    requires SweepStep(max, s, m) == Some(s')
    requires x in s.catalog && (s.catalog[x].pane.Some? || s.catalog[x].turn.Some?)
    ensures x in s'.catalog && s'.catalog[x].turn == s.catalog[x].turn
  {
  }

  // ---- eviction spares working sessions ----

  /** The session being evicted, from the moment its pane is taken until its grave is recorded. */
  function Evicted(creator: Creator): Option<SessionId> {
    match creator
    case Killing(victim, _, _, _) => Some(victim)
    case Burying(victim, _, after) => if after == ForClose then None else Some(victim)
    case Writing(victim, _, after) => if after == ForClose then None else Some(victim)
    case _ => None
  }

  ghost predicate VictimRests(s: State) {
    var v := Evicted(s.creator);
    v.Some? && v.value in s.catalog ==> s.catalog[v.value].turn.None?
  }

  lemma HolderVictimRests(max: nat, s: State, a: Action, s': State)
    requires VictimRests(s) && HoldsLock(a) && Apply(max, s, a) == Some(s')
    ensures VictimRests(s')
  {
  }

  lemma StepVictimRests(max: nat, s: State, a: Action, s': State)
    requires VictimRests(s) && Apply(max, s, a) == Some(s')
    ensures VictimRests(s')
  {
    if HoldsLock(a) {
      HolderVictimRests(max, s, a, s');
    }
  }

  /** In every run an eviction finds its victim without an active turn, and the victim starts none before it is buried. */
  lemma {:induction false} EvictionSparesActiveTurns(max: nat, s: State, actions: seq<Action>, s': State)
    requires VictimRests(s) && Execute(max, s, actions) == Some(s')
    ensures VictimRests(s')
    decreases |actions|
  {
    if actions != [] {
      var next := Apply(max, s, actions[0]).value;
      StepVictimRests(max, s, actions[0], next);
      EvictionSparesActiveTurns(max, next, actions[1..], s');
    }
  }
}
