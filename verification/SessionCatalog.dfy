/**
 The catalog of logical ACP sessions and the effect that each critical section
 of the adapter has on it.

 Every function below is what one section between two awaits does while it
 holds the `sessions` mutex; `Adapter` carries them out in place and
 `SessionProtocol` interleaves them.
 */
module SessionCatalog {
  import opened Wrappers

  datatype SessionId = SessionId(key: nat)

  /** A tmux pane. A grave is named by the pane it buried. */
  datatype PaneId = PaneId(number: nat)

  /** A backend conversation. A backend-native session id is the name of one. */
  datatype Conversation = Conversation(number: nat)

  datatype Backend = Claude | Codex | Opencode | Grok

  type TurnId = nat

  datatype Session = Session(
    pane: Option<PaneId>,
    grave: Option<PaneId>,
    backend: Option<Backend>,
    native: Option<Conversation>,
    hasSystemPrompt: bool,
    delivered: bool,
    pendingHistory: bool,
    turn: Option<TurnId>,
    lastUsed: nat,
    lastTouched: nat)

  type Catalog = map<SessionId, Session>

  /** What `ps` says of the live panes: the native id of each, once it has one. */
  type Snapshot = map<PaneId, Option<Conversation>>

  function Max(a: nat, b: nat): nat {
    if a < b then b else a
  }

  function OrElse<T>(first: Option<T>, second: Option<T>): Option<T> {
    if first.Some? then first else second
  }

  function Residents(c: Catalog): set<SessionId> {
    set x | x in c && c[x].pane.Some?
  }

  function ResidentPanes(c: Catalog): set<PaneId> {
    set x | x in Residents(c) :: c[x].pane.value
  }

  /** Sessions that eviction may choose from. */
  function Idle(c: Catalog): set<SessionId> {
    set x | x in c && c[x].pane.Some? && c[x].turn.None?
  }

  /** A session that has just lost its pane. */
  function Unseated(s: Session): Session {
    s.(pane := None, backend := None, delivered := s.delivered && s.native.Some?)
  }

  function PrunedSession(s: Session, panes: Snapshot): Session {
    if s.pane.None? then s
    else if s.pane.value in panes then s.(native := OrElse(panes[s.pane.value], s.native))
    else Unseated(s)
  }

  function Prune(c: Catalog, panes: Snapshot): Catalog {
    map x | x in c :: PrunedSession(c[x], panes)
  }

  function MarkGone(c: Catalog, x: SessionId, pane: PaneId, native: Option<Conversation>): Catalog {
    if x in c && c[x].pane == Some(pane)
    then c[x := Unseated(c[x].(native := OrElse(native, c[x].native)))]
    else c
  }

  predicate Takeable(c: Catalog, victim: SessionId) {
    victim in c && c[victim].turn.None? && c[victim].pane.Some?
  }

  function Take(c: Catalog, victim: SessionId): Catalog
    requires victim in c
  {
    c[victim := c[victim].(pane := None, backend := None)]
  }

  function PutBack(c: Catalog, victim: SessionId, pane: PaneId, backend: Option<Backend>): Catalog {
    if victim in c && c[victim].pane.None?
    then c[victim := c[victim].(pane := Some(pane), backend := backend)]
    else c
  }

  function Capture(c: Catalog, x: SessionId, grave: PaneId, native: Option<Conversation>, destroyedAt: nat): Catalog {
    if x in c
    then c[x := c[x].(grave := Some(grave),
                      native := OrElse(native, c[x].native),
                      lastUsed := Max(c[x].lastUsed, destroyedAt),
                      lastTouched := Max(c[x].lastTouched, destroyedAt))]
    else c
  }

  function CaptureNative(c: Catalog, x: SessionId, pane: PaneId, native: Option<Conversation>): Catalog {
    if x in c && c[x].pane == Some(pane) then c[x := c[x].(native := OrElse(native, c[x].native))] else c
  }

  function Deliver(c: Catalog, x: SessionId): Catalog {
    if x in c then c[x := c[x].(delivered := true)] else c
  }

  function Touch(c: Catalog, x: SessionId, activity: nat, now: nat): Catalog {
    if x in c then c[x := c[x].(lastUsed := activity, lastTouched := now)] else c
  }

  function Admit(c: Catalog, x: SessionId, pane: PaneId, backend: Backend, native: Option<Conversation>,
                 hasSystemPrompt: bool, activity: nat, now: nat): Catalog
  {
    c[x := Session(Some(pane), None, Some(backend), native, hasSystemPrompt, false, false, None, activity, now)]
  }

  function Reseat(c: Catalog, x: SessionId, pane: PaneId, backend: Backend, native: Option<Conversation>,
                  resumed: bool): Catalog
    requires x in c
  {
    c[x := c[x].(pane := Some(pane), grave := None, backend := Some(backend), native := native,
                 pendingHistory := resumed && backend == Codex,
                 delivered := resumed && c[x].delivered)]
  }

  function Adopt(c: Catalog, x: SessionId, pane: PaneId, backend: Backend, native: Conversation, touched: nat): Catalog {
    if x in c
    then c[x := c[x].(pane := Some(pane), grave := None, backend := Some(backend), native := Some(native),
                      lastUsed := touched, lastTouched := touched)]
    else c[x := Session(Some(pane), None, Some(backend), Some(native), false, true, false, None, touched, touched)]
  }

  function BeginTurn(c: Catalog, x: SessionId, turn: TurnId, activity: nat, now: nat): Catalog
    requires x in c
  {
    c[x := c[x].(turn := Some(turn), pendingHistory := false, lastUsed := activity, lastTouched := now)]
  }

  function ClearTurn(c: Catalog, x: SessionId, turn: TurnId, included: bool, discard: bool, accepted: bool): Catalog {
    if x in c && c[x].turn == Some(turn)
    then c[x := c[x].(turn := None,
                      delivered := c[x].delivered || (included && accepted),
                      pendingHistory := c[x].pendingHistory || (discard && !accepted))]
    else c
  }

  predicate Retained(s: Session, cutoff: nat) {
    s.pane.Some? || s.turn.Some? || s.lastTouched >= cutoff
  }

  function Retain(c: Catalog, cutoff: nat): Catalog {
    map x | x in c && Retained(c[x], cutoff) :: c[x]
  }
}
