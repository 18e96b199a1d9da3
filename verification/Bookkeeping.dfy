/**
 What the adapter remembers of a session between its panes, and who changes it: recency, the
 native id, the grave, and whether a resumed Codex pane still has to replay its history.
 */
module Bookkeeping {
  import opened Wrappers
  import opened SessionCatalog
  import opened SessionProtocol
  import Retention

  // ---- recency ----

  /** The activity number that work on the session takes. */
  predicate Uses(s: State, a: Action, x: SessionId, activity: nat) {
    match a
    case Run(FinishResume(at, _)) => at == activity && s.creator == SessionProtocol.Seated(x, ToResume)
    case Run(Begin(at, now)) => at == activity && Retention.Works(s, a, x, now)
    case Happen(StartSteer(_, y, at, _)) => at == activity && y == x
    case _ => false
  }

  /** A grave of the session is recorded, that of a pane destroyed at this time. */
  predicate Records(s: State, a: Action, x: SessionId, grave: PaneId, destroyedAt: nat) {
    match a
    case Evict(WriteGrave(at)) => at == destroyedAt && s.creator.Writing? && s.creator.victim == x && s.creator.found == Some(grave)
    case Play(t, WriteStaleGrave(at)) =>
      at == destroyedAt && t in s.talk.turns && s.talk.turns[t].x == x && s.talk.turns[t].phase == StaleWriting(Some(grave))
    case _ => false
  }

  ghost predicate Dated(s: State, a: Action, x: SessionId) {
    || (exists activity :: Uses(s, a, x, activity)) || (exists touched :: Retention.Adopts(a, x, touched))
    || (exists grave, at :: Records(s, a, x, grave, at))
  }

  /** Recency is the number of the last work, the activity of an adopted pane, or at least the time of a recorded grave. */
  lemma RecencyOf(max: nat, s: State, a: Action, s': State, x: SessionId, n: nat, grave: PaneId)
    requires Apply(max, s, a) == Some(s') && x in s.catalog && x in s'.catalog
    ensures Uses(s, a, x, n) ==> s'.catalog[x].lastUsed == n
    ensures Retention.Adopts(a, x, n) ==> s'.catalog[x].lastUsed == n && s'.catalog[x].lastTouched == n
    ensures Records(s, a, x, grave, n) ==>
              && s'.catalog[x].lastUsed == (if s.catalog[x].lastUsed < n then n else s.catalog[x].lastUsed)
              && s'.catalog[x].lastTouched == (if s.catalog[x].lastTouched < n then n else s.catalog[x].lastTouched)
  {
  }

  lemma RecencyKept(max: nat, s: State, a: Action, s': State, x: SessionId)
    requires Apply(max, s, a) == Some(s') && x in s.catalog && x in s'.catalog && !Dated(s, a, x)
    ensures s'.catalog[x].lastUsed == s.catalog[x].lastUsed && s'.catalog[x].lastTouched == s.catalog[x].lastTouched
  {
    match a
    case Run(m) =>
      if m.FinishResume? || m.Begin? {
        assert !Uses(s, a, x, m.activity);
      }
    case Sweep(m) =>
      if m.AdoptPane? {
        assert !Retention.Adopts(a, x, m.touched);
      }
    case Happen(m) =>
      if m.StartSteer? {
        assert !Uses(s, a, x, m.activity);
      }
    case Evict(m) =>
      if m.WriteGrave? && s.creator.found.Some? {
        assert !Records(s, a, x, s.creator.found.value, m.destroyedAt);
      }
    case Play(t, m) => TurnRecencyKept(s, t, m, s', x);
    case _ =>
  }

  lemma TurnRecencyKept(s: State, t: TurnId, m: TurnMove, s': State, x: SessionId)
    requires t in s.talk.turns && TurnStep(s, t, m) == Some(s') && x in s.catalog && !Dated(s, Play(t, m), x)
    ensures x in s'.catalog
    ensures s'.catalog[x].lastUsed == s.catalog[x].lastUsed && s'.catalog[x].lastTouched == s.catalog[x].lastTouched
  {
    if m.WriteStaleGrave? && s.talk.turns[t].phase.found.Some? {
      assert !Records(s, Play(t, m), x, s.talk.turns[t].phase.found.value, m.destroyedAt);
    }
  }

  // ---- native ids and graves ----

  /** slopd knows the native id of this pane. */
  predicate Knows(s: State, pane: PaneId, c: Conversation) {
    pane in s.world.yard.named && pane in s.world.conv && s.world.conv[pane] == c
  }

  /** slopd tells the native id of the session's pane, or of a grave of it. */
  predicate Tells(s: State, a: Action, x: SessionId, c: Conversation) {
    match a
    case Reside(PrunePanes(panes)) =>
      x in s.catalog && s.catalog[x].pane.Some? && s.catalog[x].pane.value in panes && panes[s.catalog[x].pane.value] == Some(c)
    case Run(RefreshClosing(known)) =>
      known && s.creator.Closing? && s.creator.x == x && IsSeated(s, x, s.creator.pane) && Knows(s, s.creator.pane, c)
    case Play(t, RefreshNative(known)) =>
      known && t in s.talk.turns && s.talk.turns[t].x == x && IsSeated(s, x, s.talk.turns[t].pane) && Knows(s, s.talk.turns[t].pane, c)
    case Play(t, SeePaneGone(known)) =>
      known && t in s.talk.turns && s.talk.turns[t].x == x && IsSeated(s, x, s.talk.turns[t].pane) && Knows(s, s.talk.turns[t].pane, c)
    case Evict(WriteGrave(at)) =>
      && s.creator.Writing? && s.creator.found.Some?
      && Records(s, a, x, s.creator.found.value, at) && Knows(s, s.creator.found.value, c)
    case Play(t, WriteStaleGrave(at)) =>
      && t in s.talk.turns && s.talk.turns[t].phase.StaleWriting? && s.talk.turns[t].phase.found.Some?
      && Records(s, a, x, s.talk.turns[t].phase.found.value, at) && Knows(s, s.talk.turns[t].phase.found.value, c)
    case Sweep(AdoptPane(y, pane, _, _)) => y == x && Knows(s, pane, c)
    case _ => false
  }

  predicate Buries(yard: Yard, k: nat, x: SessionId) {
    && k < |yard.graves| && yard.graves[k] in yard.tags
    && yard.tags[yard.graves[k]] == x && yard.graves[k] !in yard.revived
  }

  /** The grave a session is found by is that of its latest pane to die, of those not revived since. */
  lemma NewestGraveIs(yard: Yard, x: SessionId, k: nat)
    ensures Buries(yard, k, x) && (forall j: nat :: j > k ==> !Buries(yard, j, x)) ==>
              NewestGrave(yard, x) == Some(yard.graves[k])
    ensures NewestGrave(yard, x).None? <==> forall j: nat :: !Buries(yard, j, x)
  {
    var found := LastWhere(yard.graves, (p: PaneId) => p in yard.tags && yard.tags[p] == x && p !in yard.revived);
    assert found.Some? ==> Buries(yard, found.value, x);
  }

  predicate IsSeated(s: State, x: SessionId, pane: PaneId) {
    x in s.catalog && s.catalog[x].pane == Some(pane)
  }

  predicate Reattaches(s: State, a: Action, x: SessionId) {
    a.Launch? && a.launch.Attach? && s.creator.Tagging? && s.creator.goal.Restore? && s.creator.goal.x == x
  }

  lemma ToldNative(max: nat, s: State, a: Action, s': State, x: SessionId, c: Conversation)
    requires Apply(max, s, a) == Some(s') && x in s.catalog && x in s'.catalog && Tells(s, a, x, c)
    ensures s'.catalog[x].native == Some(c)
  {
  }

  ghost predicate Silent(s: State, a: Action, x: SessionId) {
    forall c :: !Tells(s, a, x, c)
  }

  lemma TurnNativeKept(s: State, t: TurnId, m: TurnMove, s': State, x: SessionId)
    requires t in s.talk.turns && TurnStep(s, t, m) == Some(s') && x in s.catalog && Silent(s, Play(t, m), x)
    ensures x in s'.catalog && s'.catalog[x].native == s.catalog[x].native
  {
    var pane := if m.WriteStaleGrave? && s.talk.turns[t].phase.StaleWriting? && s.talk.turns[t].phase.found.Some?
                then s.talk.turns[t].phase.found.value else s.talk.turns[t].pane;
    if pane in s.world.conv {
      assert !Tells(s, Play(t, m), x, s.world.conv[pane]);
    }
  }

  lemma EvictionNativeKept(s: State, m: EvictionMove, s': State, x: SessionId)
    requires EvictionStep(s, m) == Some(s') && x in s.catalog && Silent(s, Evict(m), x)
    ensures x in s'.catalog && s'.catalog[x].native == s.catalog[x].native
  {
    if s.creator.Writing? && s.creator.found.Some? && s.creator.found.value in s.world.conv {
      assert !Tells(s, Evict(m), x, s.world.conv[s.creator.found.value]);
    }
  }

  lemma ErrandNativeKept(s: State, m: ErrandMove, s': State, x: SessionId)
    requires ErrandStep(s, m) == Some(s') && x in s.catalog && x in s'.catalog && Silent(s, Run(m), x)
    ensures s'.catalog[x].native == s.catalog[x].native
  {
    if s.creator.Closing? && s.creator.pane in s.world.conv {
      assert !Tells(s, Run(m), x, s.world.conv[s.creator.pane]);
    }
  }

  lemma ResidencyNativeKept(max: nat, s: State, m: ResidencyMove, s': State, x: SessionId)
    requires ResidencyStep(max, s, m) == Some(s') && x in s.catalog && Silent(s, Reside(m), x)
    ensures x in s'.catalog && s'.catalog[x].native == s.catalog[x].native
  {
    if m.PrunePanes? && s.catalog[x].pane.Some? && s.catalog[x].pane.value in m.panes {
      var told := m.panes[s.catalog[x].pane.value];
      assert told.Some? ==> Tells(s, Reside(m), x, told.value);
    }
  }

  lemma SweepNativeKept(max: nat, s: State, m: SweepMove, s': State, x: SessionId)
    requires SweepStep(max, s, m) == Some(s') && x in s.catalog && x in s'.catalog && Silent(s, Sweep(m), x)
    ensures s'.catalog[x].native == s.catalog[x].native
  {
    if m.AdoptPane? && m.pane in s.world.conv {
      assert !Tells(s, Sweep(m), x, s.world.conv[m.pane]);
    }
  }

  /** The native id is the last that slopd told; nothing forgets it but a pane of its own that the session is given. */
  lemma NativeIsLastTold(max: nat, s: State, a: Action, s': State, x: SessionId)
    requires Apply(max, s, a) == Some(s') && x in s.catalog && x in s'.catalog
    ensures forall c :: Tells(s, a, x, c) ==> s'.catalog[x].native == Some(c)
    ensures Silent(s, a, x) && !Reattaches(s, a, x) ==> s'.catalog[x].native == s.catalog[x].native
    ensures Reattaches(s, a, x) && s.catalog[x].pane.None? ==>
              s'.catalog[x].native == if s.creator.native.Some? then s.creator.native else s.creator.goal.native
  {
    forall c | Tells(s, a, x, c)
      ensures s'.catalog[x].native == Some(c)
    {
      ToldNative(max, s, a, s', x, c);
    }
    if Silent(s, a, x) {
      match a
      case Reside(m) => ResidencyNativeKept(max, s, m, s', x);
      case Evict(m) => EvictionNativeKept(s, m, s', x);
      case Run(m) => ErrandNativeKept(s, m, s', x);
      case Sweep(m) => SweepNativeKept(max, s, m, s', x);
      case Play(t, m) => TurnNativeKept(s, t, m, s', x);
      case _ =>
    }
  }

  // ---- the history a resumed Codex pane replays ----

  /** A turn of the session ends without having been accepted, and gives back the history it was to discard. */
  predicate GivesBack(s: State, a: Action, x: SessionId) {
    && a.Play? && a.turn == Clear && a.t in s.talk.turns && s.talk.turns[a.t].x == x
    && x in s.catalog && s.catalog[x].turn == Some(a.t)
    && s.talk.turns[a.t].discard && !s.talk.turns[a.t].accepted
  }

  predicate BeginsTurn(s: State, a: Action, x: SessionId) {
    a.Run? && a.errand.Begin? && Retention.Works(s, a, x, a.errand.now)
  }

  /**
   A session waits for the history of its pane exactly from its attachment to a resumed Codex pane until a turn begins, which
   then discards it, and again once such a turn ends unaccepted.
   */
  lemma HistoryPendingIff(max: nat, s: State, a: Action, s': State, x: SessionId)
    requires Apply(max, s, a) == Some(s') && x in s.catalog && x in s'.catalog
    ensures Reattaches(s, a, x) && s.catalog[x].pane.None? ==>
              (s'.catalog[x].pendingHistory <==> s.creator.resumed && a.launch.backend == Codex)
    ensures BeginsTurn(s, a, x) ==>
              && !s'.catalog[x].pendingHistory && s.talk.nextTurn in s'.talk.turns
              && (s'.talk.turns[s.talk.nextTurn].discard <==> s.catalog[x].pendingHistory)
    ensures !(Reattaches(s, a, x) && s.catalog[x].pane.None?) && !BeginsTurn(s, a, x) ==>
              (s'.catalog[x].pendingHistory <==> s.catalog[x].pendingHistory || GivesBack(s, a, x))
  {
    if a.Play? {
      TurnHistory(s, a.t, a.turn, s', x);
    }
  }

  lemma TurnHistory(s: State, t: TurnId, m: TurnMove, s': State, x: SessionId)
    requires t in s.talk.turns && TurnStep(s, t, m) == Some(s') && x in s.catalog
    ensures x in s'.catalog
    ensures s'.catalog[x].pendingHistory <==> s.catalog[x].pendingHistory || GivesBack(s, Play(t, m), x)
  {
  }

  // ---- whether the system prompt counts as delivered ----

  /** A prompt of the session was accepted: its turn marks the session as delivered, at once or when it ends. */
  predicate Delivers(s: State, a: Action, x: SessionId) {
    && a.Play? && a.t in s.talk.turns && s.talk.turns[a.t].x == x && s.talk.turns[a.t].accepted && x in s.catalog
    && ((a.turn == MarkResumable && s.talk.turns[a.t].phase == Running)
        || (a.turn == Clear && s.talk.turns[a.t].phase.Holding? && s.talk.turns[a.t].included && s.catalog[x].turn == Some(a.t)))
  }

  /** The session loses its pane, other than to an eviction. */
  predicate LosesPane(s: State, a: Action, s': State, x: SessionId) {
    !a.Evict? && x in s.catalog && x in s'.catalog && s.catalog[x].pane.Some? && s'.catalog[x].pane.None?
  }

  /**
   A session counts as delivered from an accepted prompt until it loses its pane without a native id to resume it by, or
   restarts without its conversation; an eviction changes nothing.
   */
  lemma DeliveredIff(max: nat, s: State, a: Action, s': State, x: SessionId)
    requires Apply(max, s, a) == Some(s') && x in s.catalog && x in s'.catalog
    ensures Delivers(s, a, x) ==> s'.catalog[x].delivered
    ensures LosesPane(s, a, s', x) ==> (s'.catalog[x].delivered <==> s.catalog[x].delivered && s'.catalog[x].native.Some?)
    ensures Reattaches(s, a, x) && s.catalog[x].pane.None? ==>
              (s'.catalog[x].delivered <==> s.creator.resumed && s.catalog[x].delivered)
    ensures !Delivers(s, a, x) && !LosesPane(s, a, s', x) && !(Reattaches(s, a, x) && s.catalog[x].pane.None?) ==>
              s'.catalog[x].delivered == s.catalog[x].delivered
  {
    if a.Play? {
      TurnDelivered(s, a.t, a.turn, s', x);
    }
  }

  lemma TurnDelivered(s: State, t: TurnId, m: TurnMove, s': State, x: SessionId)
    requires t in s.talk.turns && TurnStep(s, t, m) == Some(s') && x in s.catalog
    ensures x in s'.catalog
    ensures Delivers(s, Play(t, m), x) ==> s'.catalog[x].delivered && s'.catalog[x].pane == s.catalog[x].pane
    ensures LosesPane(s, Play(t, m), s', x) ==> (s'.catalog[x].delivered <==> s.catalog[x].delivered && s'.catalog[x].native.Some?)
    ensures !Delivers(s, Play(t, m), x) && !LosesPane(s, Play(t, m), s', x) ==> s'.catalog[x].delivered == s.catalog[x].delivered
  {
  }
}
