/**
 The adapter object: its critical sections carried out in place on the session
 map, each proved against the catalog function that the protocol interleaves.
 */
module Adapter {
  import opened Wrappers
  import opened SessionCatalog
  import SessionProtocol
  import SessionSafety

  /** What a graveyard page says of one buried pane; pages come newest first. */
  datatype GraveEntry = GraveEntry(pane: PaneId, session: Option<SessionId>, revived: bool,
                                   native: Option<Conversation>, destroyedAt: nat)

  predicate Buries(grave: GraveEntry, x: SessionId) {
    grave.session == Some(x) && !grave.revived
  }

  /** An active turn whose pane is gone. */
  predicate Bereft(s: Session, panes: Snapshot) {
    s.turn.Some? && s.pane.Some? && s.pane.value !in panes
  }

  class Adapter {
    const maxSessions: nat
    var sessions: Catalog

    constructor (maxSessions: nat)
      ensures this.maxSessions == maxSessions && sessions == map[]
    {
      this.maxSessions := maxSessions;
      sessions := map[];
    }

    /** Drops the panes that `ps` no longer lists; `cancelled` are the sessions whose turn ran in one of them. */
    method ReconcileLiveSessions(panes: Snapshot) returns (cancelled: set<SessionId>)
      modifies this`sessions
      ensures sessions == Prune(old(sessions), panes)
      ensures cancelled == set x | x in old(sessions) && Bereft(old(sessions)[x], panes)
    {
      cancelled := {};
      ghost var was := sessions;
      var todo := sessions.Keys;
      while todo != {}
        invariant todo <= was.Keys == sessions.Keys
        invariant forall x :: x in todo ==> sessions[x] == was[x]
        invariant forall x :: x in was && x !in todo ==> sessions[x] == PrunedSession(was[x], panes)
        invariant cancelled == set x | x in was && x !in todo && Bereft(was[x], panes)
        decreases todo
      {
        var x :| x in todo;
        todo := todo - {x};
        var session := sessions[x];
        if session.pane.Some? {
          if session.pane.value in panes {
            if panes[session.pane.value].Some? {
              session := session.(native := panes[session.pane.value]);
            }
          } else {
            session := session.(pane := None, backend := None);
            if session.native.None? {
              session := session.(delivered := false);
            }
            if session.turn.Some? {
              cancelled := cancelled + {x};
            }
          }
        }
        assert session == PrunedSession(was[x], panes);
        sessions := sessions[x := session];
      }
    }

    method LiveCount() returns (count: nat)
      ensures count == |Residents(sessions)|
    {
      count := 0;
      var todo := sessions.Keys;
      while todo != {}
        invariant todo <= sessions.Keys
        invariant count == |Residents(sessions) - todo|
        decreases todo
      {
        var x :| x in todo;
        if sessions[x].pane.Some? {
          assert Residents(sessions) - (todo - {x}) == (Residents(sessions) - todo) + {x};
          count := count + 1;
        } else {
          assert Residents(sessions) - (todo - {x}) == Residents(sessions) - todo;
        }
        todo := todo - {x};
      }
      assert Residents(sessions) - todo == Residents(sessions);
    }

    /** An inactive resident session with the least `lastUsed`, if there is one. */
    method SelectVictim() returns (victim: Option<SessionId>)
      ensures victim.None? <==> Idle(sessions) == {}
      ensures victim.Some? ==> SessionProtocol.LeastUsed(sessions, victim.value)
    {
      victim := None;
      var todo := sessions.Keys;
      while todo != {}
        invariant todo <= sessions.Keys
        invariant victim.None? ==> Idle(sessions) <= todo
        invariant victim.Some? ==> victim.value in Idle(sessions)
        invariant victim.Some? ==>
                    forall y :: y in Idle(sessions) - todo ==> sessions[victim.value].lastUsed <= sessions[y].lastUsed
        decreases todo
      {
        var x :| x in todo;
        todo := todo - {x};
        var session := sessions[x];
        if session.pane.Some? && session.turn.None? {
          if victim.None? || session.lastUsed < sessions[victim.value].lastUsed {
            victim := Some(x);
          }
        }
      }
    }

    /** The pane taken from the victim; `None` where the adapter refuses or panics. */
    method TakeVictim(victim: SessionId) returns (taken: Option<(PaneId, Option<Backend>)>)
      modifies this`sessions
      ensures taken.Some? <==> Takeable(old(sessions), victim)
      ensures taken.Some? ==>
                && taken.value == (old(sessions)[victim].pane.value, old(sessions)[victim].backend)
                && sessions == Take(old(sessions), victim)
      ensures taken.None? ==> sessions == old(sessions)
    {
      if victim !in sessions || sessions[victim].turn.Some? || sessions[victim].pane.None? {
        return None;
      }
      taken := Some((sessions[victim].pane.value, sessions[victim].backend));
      sessions := sessions[victim := sessions[victim].(pane := None, backend := None)];
    }

    method ReturnVictim(victim: SessionId, pane: PaneId, backend: Option<Backend>)
      modifies this`sessions
      ensures sessions == PutBack(old(sessions), victim, pane, backend)
    {
      if victim in sessions && sessions[victim].pane.None? {
        sessions := sessions[victim := sessions[victim].(pane := Some(pane), backend := backend)];
      }
    }

    method MarkPaneGone(x: SessionId, pane: PaneId, native: Option<Conversation>)
      modifies this`sessions
      ensures sessions == MarkGone(old(sessions), x, pane, native)
    {
      if x !in sessions || sessions[x].pane != Some(pane) {
        return;
      }
      var session := sessions[x];
      if native.Some? {
        session := session.(native := native);
      }
      session := session.(pane := None, backend := None);
      if session.native.None? {
        session := session.(delivered := false);
      }
      sessions := sessions[x := session];
    }

    /** Records the first unrevived grave of the session in the page order. */
    method CaptureLatestGrave(x: SessionId, graves: seq<GraveEntry>) returns (found: Option<nat>)
      modifies this`sessions
      ensures found.None? ==> sessions == old(sessions) && forall i :: 0 <= i < |graves| ==> !Buries(graves[i], x)
      ensures found.Some? ==>
                && found.value < |graves|
                && Buries(graves[found.value], x)
                && (forall i :: 0 <= i < found.value ==> !Buries(graves[i], x))
                && var grave := graves[found.value];
                   sessions == Capture(old(sessions), x, grave.pane, grave.native, grave.destroyedAt)
    {
      var i := 0;
      while i < |graves| && !Buries(graves[i], x)
        invariant 0 <= i <= |graves|
        invariant forall j :: 0 <= j < i ==> !Buries(graves[j], x)
      {
        i := i + 1;
      }
      if i == |graves| {
        return None;
      }
      found := Some(i);
      if x in sessions {
        var session := sessions[x].(grave := Some(graves[i].pane));
        if graves[i].native.Some? {
          session := session.(native := graves[i].native);
        }
        session := session.(lastUsed := Max(session.lastUsed, graves[i].destroyedAt),
                            lastTouched := Max(session.lastTouched, graves[i].destroyedAt));
        sessions := sessions[x := session];
      }
    }

    method RetainRecent(cutoff: nat)
      modifies this`sessions
      ensures sessions == Retain(old(sessions), cutoff)
      ensures forall x :: x in sessions <==>
                x in old(sessions)
                && (old(sessions)[x].pane.Some? || old(sessions)[x].turn.Some? || old(sessions)[x].lastTouched >= cutoff)
      ensures forall x :: x in sessions ==> sessions[x] == old(sessions)[x]
    {
      ghost var was := sessions;
      var todo := sessions.Keys;
      while todo != {}
        invariant todo <= was.Keys
        invariant sessions == map x | x in was && (x in todo || Retained(was[x], cutoff)) :: was[x]
        decreases todo
      {
        var x :| x in todo;
        todo := todo - {x};
        if !(sessions[x].pane.Some? || sessions[x].turn.Some? || sessions[x].lastTouched >= cutoff) {
          sessions := sessions - {x};
        }
      }
    }

    /**
     Evicts until the limit holds, when nothing else runs. `kills` answers each kill in turn:
     a pane that can be neither killed nor seen gone goes back to its session.
     */
    method TrimRecoveredPanes(kills: seq<bool>) returns (ok: bool)
      modifies this`sessions
      ensures sessions.Keys == old(sessions).Keys
      ensures ok ==> |Residents(sessions)| <= maxSessions
      ensures Residents(sessions) <= Residents(old(sessions))
      ensures forall x :: x in old(sessions) && old(sessions)[x].turn.Some? ==> sessions[x] == old(sessions)[x]
      ensures |Residents(old(sessions))| <= maxSessions ==> ok && sessions == old(sessions)
    {
      var turn := 0;
      var live := LiveCount();
      while live > maxSessions
        invariant live == |Residents(sessions)|
        invariant sessions.Keys == old(sessions).Keys
        invariant Residents(sessions) <= Residents(old(sessions))
        invariant forall x :: x in old(sessions) && old(sessions)[x].turn.Some? ==> sessions[x] == old(sessions)[x]
        invariant forall x :: x in sessions ==> sessions[x].turn == old(sessions)[x].turn
        invariant |Residents(old(sessions))| <= maxSessions ==> sessions == old(sessions)
        decreases live
      {
        SessionSafety.SubsetIsSmaller(Residents(sessions), Residents(old(sessions)));
        var victim := SelectVictim();
        if victim.None? {
          return false;
        }
        ghost var before := sessions;
        var taken := TakeVictim(victim.value);
        assert Residents(sessions) == Residents(before) - {victim.value};
        if turn >= |kills| || !kills[turn] {
          ReturnVictim(victim.value, taken.value.0, taken.value.1);
          return false;
        }
        turn := turn + 1;
        live := LiveCount();
      }
      return true;
    }
  }
}
