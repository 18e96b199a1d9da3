/**
 The multiplexed client: requests and subscriptions share one connection, and a background
 loop routes each arriving response to the waiter or the queue that has its id.
 */
module Client {
  import opened Wrappers

  type Id = nat

  datatype Body = Sent(pane: string) | Error(message: string) | Subscribed | Unsubscribed | Record(payload: string) | Other

  datatype Response = Response(id: Id, body: Body)

  datatype Status = Waiting | Filled(response: Response) | Answered(response: Response) | Gone

  /**
   The receiving end of an id: a one-shot channel, with the subscription an unsubscribe request
   is to end, or a queue. `begun` is how many messages had arrived when the id was allocated,
   `ended` how many when the queue was taken out of the routing table.
   */
  datatype Caller =
    | Waiter(begun: nat, target: Option<Id>, status: Status)
    | Queue(begun: nat, inbox: seq<Response>, ended: Option<nat>)

  /** What the routing loop looks up: ids that wait for one response, and ids that stream. */
  datatype Routing = Routing(closed: bool, pending: set<Id>, subscriptions: set<Id>)

  datatype State = State(nextId: Id, routing: Routing, callers: map<Id, Caller>, wire: seq<Response>)

  /** The client when it becomes multiplexed: ids below `first` were used up before, and may still be answered late. */
  function Start(first: Id): State {
    State(first, Routing(false, {}, {}), map[], [])
  }

  /** `Abandon` is a timeout, a failed write or a caller that goes away: the routing entry of its id stays behind. */
  datatype Action =
    | Send(target: Option<Id>)
    | Arrive(response: Response)
    | Take(id: Id)
    | Abandon(id: Id)
    | Subscribe
    | Confirm(id: Id)
    | Close

  // ---- one step ----

  function SendStep(s: State, target: Option<Id>): State {
    State(s.nextId + 1, s.routing.(pending := s.routing.pending + {s.nextId}),
          s.callers[s.nextId := Waiter(|s.wire|, target, Waiting)], s.wire)
  }

  function SubscribeStep(s: State): State {
    State(s.nextId + 1, s.routing.(subscriptions := s.routing.subscriptions + {s.nextId}),
          s.callers[s.nextId := Queue(|s.wire|, [], None)], s.wire)
  }

  function Received(c: Caller, r: Response): Caller {
    match c
    case Queue(begun, inbox, ended) => Queue(begun, inbox + [r], ended)
    case Waiter(begun, target, status) => if status == Waiting then Waiter(begun, target, Filled(r)) else c
  }

  /** A response goes to the queue of its id, else to the waiter of its id, else nowhere. */
  function Routed(s: State, r: Response): State {
    var to := r.id in s.routing.subscriptions || r.id in s.routing.pending;
    State(s.nextId,
          if r.id in s.routing.subscriptions then s.routing else s.routing.(pending := s.routing.pending - {r.id}),
          if to && r.id in s.callers then s.callers[r.id := Received(s.callers[r.id], r)] else s.callers,
          s.wire + [r])
  }

  function Stopped(c: Caller, at: nat): Caller {
    if c.Queue? && c.ended.None? then c.(ended := Some(at)) else c
  }

  function Unregistered(s: State, id: Id): State {
    if id !in s.routing.subscriptions || id !in s.callers then s
    else s.(routing := s.routing.(subscriptions := s.routing.subscriptions - {id}),
            callers := s.callers[id := Stopped(s.callers[id], |s.wire|)])
  }

  predicate CanTake(s: State, id: Id) {
    id in s.callers && s.callers[id].Waiter? && s.callers[id].status.Filled?
  }

  /** The caller receives its answer; that of an unsubscribe request takes its target out. */
  function Taken(s: State, id: Id): State
    requires CanTake(s, id)
  {
    var c := s.callers[id];
    var t := s.(callers := s.callers[id := c.(status := Answered(c.status.response))]);
    if c.target.Some? && c.status.response.body == Unsubscribed then Unregistered(t, c.target.value) else t
  }

  predicate CanAbandon(s: State, id: Id) {
    id in s.callers && s.callers[id].Waiter? && (s.callers[id].status == Waiting || s.callers[id].status.Filled?)
  }

  predicate CanConfirm(s: State, id: Id) {
    id in s.callers && s.callers[id].Queue? && s.callers[id].inbox != []
  }

  function Closed(s: State): State {
    s.(routing := Routing(true, {}, {}), callers := map id | id in s.callers :: Stopped(s.callers[id], |s.wire|))
  }

  function Step(s: State, a: Action): Option<State> {
    match a
    case Send(target) => Some(SendStep(s, target))
    case Subscribe => Some(SubscribeStep(s))
    case Arrive(r) => if s.routing.closed then None else Some(Routed(s, r))
    case Take(id) => if CanTake(s, id) then Some(Taken(s, id)) else None
    case Abandon(id) =>
      if CanAbandon(s, id) then Some(s.(callers := s.callers[id := s.callers[id].(status := Gone)])) else None
    case Confirm(id) =>
      if !CanConfirm(s, id) then None
      else Some(if s.callers[id].inbox[0].body == Subscribed then s else Unregistered(s, id))
    case Close => if s.routing.closed then None else Some(Closed(s))
  }

  function Run(s: State, actions: seq<Action>): Option<State>
    decreases |actions|
  {
    if actions == [] then Some(s)
    else
      var next := Step(s, actions[0]);
      if next.None? then None else Run(next.value, actions[1..])
  }

  // ---- the client, changed in place ----

  class Multiplexed {
    var nextId: Id
    var closed: bool
    var pending: set<Id>
    var subscriptions: set<Id>
    var callers: map<Id, Caller>
    ghost var wire: seq<Response>
    var arrived: nat

    ghost predicate Valid()
      reads this
    {
      arrived == |wire|
    }

    ghost function View(): State
      reads this
    {
      State(nextId, Routing(closed, pending, subscriptions), callers, wire)
    }

    constructor (first: Id)
      ensures Valid() && View() == Start(first)
      ensures nextId == first && !closed && pending == {} && subscriptions == {} && callers == map[] && wire == []
    {
      nextId, closed, pending, subscriptions, callers := first, false, {}, {}, map[];
      wire, arrived := [], 0;
    }

    method AllocId() returns (id: Id)
      modifies this`nextId
      ensures id == old(nextId) && nextId == id + 1
    {
      id := nextId;
      nextId := nextId + 1;
    }

    /** Registers before sending, so that no response is missed. */
    method SendRequest(target: Option<Id>) returns (id: Id)
      requires Valid()
      modifies this
      ensures Valid() && id == old(nextId) && Some(View()) == Step(old(View()), Send(target))
    {
      id := AllocId();
      pending := pending + {id};
      callers := callers[id := Waiter(arrived, target, Waiting)];
    }

    method SubscribeRequest() returns (id: Id)
      requires Valid()
      modifies this
      ensures Valid() && id == old(nextId) && Some(View()) == Step(old(View()), Subscribe)
    {
      id := AllocId();
      subscriptions := subscriptions + {id};
      callers := callers[id := Queue(arrived, [], None)];
    }

    method Route(r: Response)
      requires Valid() && !closed
      modifies this
      ensures Valid() && Some(View()) == Step(old(View()), Arrive(r))
    {
      wire := wire + [r];
      arrived := arrived + 1;
      if r.id in subscriptions {
        if r.id in callers {
          callers := callers[r.id := Received(callers[r.id], r)];
        }
      } else if r.id in pending {
        pending := pending - {r.id};
        if r.id in callers {
          callers := callers[r.id := Received(callers[r.id], r)];
        }
      } else {
        assert pending - {r.id} == pending;
      }
    }

    method Unregister(id: Id)
      requires Valid()
      modifies this`subscriptions, this`callers
      ensures Valid() && View() == Unregistered(old(View()), id)
    {
      if id in subscriptions && id in callers {
        subscriptions := subscriptions - {id};
        callers := callers[id := Stopped(callers[id], arrived)];
      }
    }

    method TakeAnswer(id: Id) returns (r: Response)
      requires Valid() && CanTake(View(), id)
      modifies this
      ensures Valid() && r == old(callers)[id].status.response && Some(View()) == Step(old(View()), Take(id))
    {
      var c := callers[id];
      r := c.status.response;
      callers := callers[id := c.(status := Answered(r))];
      if c.target.Some? && r.body == Unsubscribed {
        Unregister(c.target.value);
      }
    }

    method GiveUp(id: Id)
      requires Valid() && CanAbandon(View(), id)
      modifies this
      ensures Valid() && Some(View()) == Step(old(View()), Abandon(id))
    {
      callers := callers[id := callers[id].(status := Gone)];
    }

    method ConfirmSubscription(id: Id) returns (ok: bool)
      requires Valid() && CanConfirm(View(), id)
      modifies this
      ensures Valid() && ok == (old(callers)[id].inbox[0].body == Subscribed)
      ensures Some(View()) == Step(old(View()), Confirm(id))
    {
      ok := callers[id].inbox[0].body == Subscribed;
      if !ok {
        Unregister(id);
      }
    }

    method CloseAll()
      requires Valid() && !closed
      modifies this
      ensures Valid() && Some(View()) == Step(old(View()), Close)
    {
      closed := true;
      pending := {};
      subscriptions := {};
      callers := map id | id in callers :: Stopped(callers[id], arrived);
    }
  }

  // ---- messages of an id ----

  function Matching(messages: seq<Response>, id: Id): seq<Response> {
    if messages == [] then []
    else
      var last := messages[|messages| - 1];
      Matching(messages[..|messages| - 1], id) + if last.id == id then [last] else []
  }

  /** The messages of an id from one point of the stream to another. */
  function Between(wire: seq<Response>, begun: nat, end: nat, id: Id): seq<Response> {
    if begun <= end <= |wire| then Matching(wire[begun..end], id) else []
  }

  lemma BetweenAppend(wire: seq<Response>, r: Response, begun: nat, end: nat, id: Id)
    ensures end <= |wire| ==> Between(wire + [r], begun, end, id) == Between(wire, begun, end, id)
    ensures begun <= |wire| ==>
              Between(wire + [r], begun, |wire| + 1, id) == Between(wire, begun, |wire|, id) + if r.id == id then [r] else []
  {
    if begun <= end <= |wire| {
      assert (wire + [r])[begun..end] == wire[begun..end];
    }
    if begun <= |wire| {
      var longer := (wire + [r])[begun..|wire| + 1];
      assert longer == wire[begun..|wire|] + [r];
      assert longer[..|longer| - 1] == wire[begun..|wire|];
    }
  }

  lemma {:induction false} MatchingHasId(messages: seq<Response>, id: Id)
    ensures forall i :: 0 <= i < |Matching(messages, id)| ==> Matching(messages, id)[i].id == id
  {
    if messages != [] {
      MatchingHasId(messages[..|messages| - 1], id);
    }
  }

  // ---- what every run keeps ----

  /** A waiter still in the table has missed nothing, and what fills it is the first message of its id. */
  ghost predicate WaiterOk(routing: Routing, wire: seq<Response>, id: Id, c: Caller)
    requires c.Waiter?
  {
    var since := Between(wire, c.begun, |wire|, id);
    && c.begun <= |wire| && id !in routing.subscriptions
    && (id in routing.pending ==> since == [] && (c.status == Waiting || c.status == Gone))
    && (c.status == Waiting ==> id in routing.pending || routing.closed)
    && (c.status.Filled? || c.status.Answered? ==> since != [] && since[0] == c.status.response)
  }

  /** A queue holds exactly the messages of its id that arrived while it was in the table. */
  ghost predicate QueueOk(routing: Routing, wire: seq<Response>, id: Id, c: Caller)
    requires c.Queue?
  {
    var end := if c.ended.Some? then c.ended.value else |wire|;
    && c.begun <= end <= |wire| && id !in routing.pending
    && (id in routing.subscriptions <==> c.ended.None?)
    && c.inbox == Between(wire, c.begun, end, id)
  }

  ghost predicate CallerOk(routing: Routing, wire: seq<Response>, id: Id, c: Caller) {
    if c.Waiter? then WaiterOk(routing, wire, id, c) else QueueOk(routing, wire, id, c)
  }

  ghost predicate Ok(first: Id, s: State) {
    && first <= s.nextId
    && (forall id :: id in s.callers <==> first <= id < s.nextId)
    && s.routing.pending + s.routing.subscriptions <= s.callers.Keys
    && (forall id :: id in s.callers ==> CallerOk(s.routing, s.wire, id, s.callers[id]))
  }

  lemma NewCallerOk(first: Id, s: State, s': State)
    requires Ok(first, s) && (s' == SubscribeStep(s) || exists target :: s' == SendStep(s, target))
    ensures Ok(first, s')
  {
    assert s.wire[|s.wire|..|s.wire|] == [];
    forall id | id in s.callers
      ensures CallerOk(s'.routing, s'.wire, id, s'.callers[id])
    {
      assert CallerOk(s.routing, s.wire, id, s.callers[id]);
    }
  }

  lemma RoutedCallerOk(first: Id, s: State, r: Response, id: Id)
    requires Ok(first, s) && id in s.callers
    ensures CallerOk(Routed(s, r).routing, s.wire + [r], id, Routed(s, r).callers[id])
  {
    var c := s.callers[id];
    assert CallerOk(s.routing, s.wire, id, c);
    BetweenAppend(s.wire, r, c.begun, if c.Queue? && c.ended.Some? then c.ended.value else |s.wire|, id);
  }

  lemma RoutedOk(first: Id, s: State, r: Response)
    requires Ok(first, s)
    ensures Ok(first, Routed(s, r))
  {
    var s' := Routed(s, r);
    forall id | id in s'.callers
      ensures CallerOk(s'.routing, s'.wire, id, s'.callers[id])
    {
      RoutedCallerOk(first, s, r, id);
    }
  }

  lemma UnregisteredOk(first: Id, s: State, id: Id)
    requires Ok(first, s)
    ensures Ok(first, Unregistered(s, id))
  {
    var s' := Unregistered(s, id);
    forall other | other in s.callers
      ensures CallerOk(s'.routing, s'.wire, other, s'.callers[other])
    {
      assert CallerOk(s.routing, s.wire, other, s.callers[other]);
    }
  }

  lemma StatusOk(first: Id, s: State, id: Id, status: Status)
    requires Ok(first, s) && id in s.callers && s.callers[id].Waiter?
    requires status == Gone || (s.callers[id].status.Filled? && status == Answered(s.callers[id].status.response))
    ensures Ok(first, s.(callers := s.callers[id := s.callers[id].(status := status)]))
  {
    var s' := s.(callers := s.callers[id := s.callers[id].(status := status)]);
    forall other | other in s.callers
      ensures CallerOk(s'.routing, s'.wire, other, s'.callers[other])
    {
      assert CallerOk(s.routing, s.wire, other, s.callers[other]);
    }
  }

  lemma ClosedOk(first: Id, s: State)
    requires Ok(first, s)
    ensures Ok(first, Closed(s))
  {
    var s' := Closed(s);
    forall id | id in s'.callers
      ensures CallerOk(s'.routing, s'.wire, id, s'.callers[id])
    {
      assert CallerOk(s.routing, s.wire, id, s.callers[id]);
    }
  }

  lemma StepOk(first: Id, s: State, a: Action, s': State)
    requires Ok(first, s) && Step(s, a) == Some(s')
    ensures Ok(first, s')
  {
    match a
    case Send(target) => NewCallerOk(first, s, s');
    case Subscribe => NewCallerOk(first, s, s');
    case Arrive(r) => RoutedOk(first, s, r);
    case Take(id) =>
      var c := s.callers[id];
      StatusOk(first, s, id, Answered(c.status.response));
      if c.target.Some? {
        UnregisteredOk(first, s.(callers := s.callers[id := c.(status := Answered(c.status.response))]), c.target.value);
      }
    case Abandon(id) => StatusOk(first, s, id, Gone);
    case Confirm(id) => UnregisteredOk(first, s, id);
    case Close => ClosedOk(first, s);
  }

  lemma {:induction false} RunOk(first: Id, s: State, actions: seq<Action>, s': State)
    requires Ok(first, s) && Run(s, actions) == Some(s')
    ensures Ok(first, s')
    decreases |actions|
  {
    if actions != [] {
      var next := Step(s, actions[0]).value;
      StepOk(first, s, actions[0], next);
      RunOk(first, next, actions[1..], s');
    }
  }

  /**
   In every run, whatever the interleaving of sends, timeouts, subscriptions and arrivals, and
   whatever requests made before are still answered: the answer of a request carries the id
   allocated for it, and is the first message of that id to arrive since then.
   */
  lemma AnswersMatch(first: Id, actions: seq<Action>, s: State, id: Id)
    requires Run(Start(first), actions) == Some(s)
    requires id in s.callers && s.callers[id].Waiter? && s.callers[id].status.Answered?
    ensures
      var c := s.callers[id];
      && c.status.response.id == id && first <= id && c.begun <= |s.wire|
      && Matching(s.wire[c.begun..], id) != [] && Matching(s.wire[c.begun..], id)[0] == c.status.response
  {
    RunOk(first, Start(first), actions, s);
    var c := s.callers[id];
    assert CallerOk(s.routing, s.wire, id, c);
    assert s.wire[c.begun..|s.wire|] == s.wire[c.begun..];
    MatchingHasId(s.wire[c.begun..], id);
  }

  /** While the connection is open, the first response to a waiting request is its answer, and a registered subscription gets each of its messages. */
  lemma OpenDelivers(first: Id, s: State, r: Response)
    requires Ok(first, s) && !s.routing.closed
    ensures Step(s, Arrive(r)).Some?
    ensures
      var s' := Step(s, Arrive(r)).value;
      && (r.id in s.callers && s.callers[r.id].Waiter? && s.callers[r.id].status == Waiting ==>
            && Step(s', Take(r.id)).Some? && r.id in Step(s', Take(r.id)).value.callers
            && Step(s', Take(r.id)).value.callers[r.id] == s.callers[r.id].(status := Answered(r)))
      && (r.id in s.callers && s.callers[r.id].Queue? && s.callers[r.id].ended.None? ==>
            s'.callers[r.id] == s.callers[r.id].(inbox := s.callers[r.id].inbox + [r]))
    ensures Step(Closed(s), Arrive(r)).None?
  {
    if r.id in s.callers {
      assert CallerOk(s.routing, s.wire, r.id, s.callers[r.id]);
    }
  }

  /** In every run, a subscription has received, in order, exactly the messages of its id while it was registered. */
  lemma SubscriptionsReceiveTheirs(first: Id, actions: seq<Action>, s: State, id: Id)
    requires Run(Start(first), actions) == Some(s) && id in s.callers && s.callers[id].Queue?
    ensures
      var c := s.callers[id];
      var end := if c.ended.Some? then c.ended.value else |s.wire|;
      && c.begun <= end <= |s.wire|
      && c.inbox == Matching(s.wire[c.begun..end], id)
      && (c.ended.None? <==> id in s.routing.subscriptions)
  {
    RunOk(first, Start(first), actions, s);
    assert CallerOk(s.routing, s.wire, id, s.callers[id]);
  }

  /** The caller of an unsubscribe request takes the confirmation for this subscription. */
  predicate Unsubscribes(s: State, a: Action, q: Id) {
    && a.Take? && a.id in s.callers && s.callers[a.id].Waiter? && s.callers[a.id].target == Some(q)
    && s.callers[a.id].status.Filled? && s.callers[a.id].status.response.body == Unsubscribed
  }

  /** What answers the subscription request is not a confirmation. */
  predicate Refuses(s: State, a: Action, q: Id) {
    && a == Confirm(q) && q in s.callers && s.callers[q].Queue?
    && s.callers[q].inbox != [] && s.callers[q].inbox[0].body != Subscribed
  }

  /** A subscription ends exactly when it is unsubscribed, refused, or the connection closes; it is then no longer registered. */
  lemma QueueEndsIff(first: Id, s: State, a: Action, s': State, q: Id)
    requires Ok(first, s) && Step(s, a) == Some(s')
    requires q in s.callers && s.callers[q].Queue? && s.callers[q].ended.None?
    ensures q in s'.callers && s'.callers[q].Queue?
    ensures s'.callers[q].ended == if Unsubscribes(s, a, q) || Refuses(s, a, q) || a == Close then Some(|s.wire|) else None
    ensures s'.callers[q].ended.None? <==> q in s'.routing.subscriptions
  {
    StepOk(first, s, a, s');
    assert CallerOk(s.routing, s.wire, q, s.callers[q]) && CallerOk(s'.routing, s'.wire, q, s'.callers[q]);
    assert q < s.nextId;
  }

  lemma StepKeepsEnded(first: Id, s: State, a: Action, s': State, q: Id)
    requires Ok(first, s) && Step(s, a) == Some(s')
    requires q in s.callers && s.callers[q].Queue? && s.callers[q].ended.Some?
    ensures q in s'.callers && s'.callers[q] == s.callers[q]
  {
    assert CallerOk(s.routing, s.wire, q, s.callers[q]) && q < s.nextId;
  }

  /** Nothing reaches a subscription once it has ended. */
  lemma {:induction false} EndedStaysEnded(first: Id, s: State, actions: seq<Action>, s': State, q: Id)
    requires Ok(first, s) && Run(s, actions) == Some(s')
    requires q in s.callers && s.callers[q].Queue? && s.callers[q].ended.Some?
    ensures q in s'.callers && s'.callers[q] == s.callers[q] && q !in s'.routing.subscriptions
    decreases |actions|
  {
    if actions == [] {
      assert CallerOk(s.routing, s.wire, q, s.callers[q]);
    } else {
      var next := Step(s, actions[0]).value;
      StepOk(first, s, actions[0], next);
      StepKeepsEnded(first, s, actions[0], next, q);
      EndedStaysEnded(first, next, actions[1..], s', q);
    }
  }

  /**
   In every run, once a subscription is unsubscribed, refused or cut off, its inbox never changes again; until then it
   is registered and holds every message of its id.
   */
  lemma UnsubscribedReceivesNothing(first: Id, actions: seq<Action>, s: State, a: Action, s': State,
                                    more: seq<Action>, s'': State, q: Id)
    requires Run(Start(first), actions) == Some(s) && Step(s, a) == Some(s') && Run(s', more) == Some(s'')
    requires q in s.callers && s.callers[q].Queue? && s.callers[q].ended.None?
    requires Unsubscribes(s, a, q) || Refuses(s, a, q) || a == Close
    ensures s.callers[q].begun <= |s.wire| && s.callers[q].inbox == Matching(s.wire[s.callers[q].begun..], q)
    ensures q in s''.callers && s''.callers[q] == s.callers[q].(ended := Some(|s.wire|))
  {
    RunOk(first, Start(first), actions, s);
    StepOk(first, s, a, s');
    QueueEndsIff(first, s, a, s', q);
    EndedStaysEnded(first, s', more, s'', q);
    assert CallerOk(s.routing, s.wire, q, s.callers[q]) && CallerOk(s'.routing, s'.wire, q, s'.callers[q]);
    assert s.wire[s.callers[q].begun..|s.wire|] == s.wire[s.callers[q].begun..];
    EndingKeepsInbox(s, a, s', q);
  }

  lemma EndingKeepsInbox(s: State, a: Action, s': State, q: Id)
    requires Step(s, a) == Some(s') && !a.Arrive? && q in s.callers && s.callers[q].Queue? && q < s.nextId
    ensures q in s'.callers && s'.callers[q].Queue?
    ensures s'.callers[q].inbox == s.callers[q].inbox && s'.callers[q].begun == s.callers[q].begun
  {
  }

  /** Nothing changes for a request that was answered or given up. */
  predicate Final(s: State, id: Id) {
    id in s.callers && s.callers[id].Waiter? && (s.callers[id].status.Answered? || s.callers[id].status == Gone)
  }

  lemma StepKeepsFinal(first: Id, s: State, a: Action, s': State, id: Id)
    requires Ok(first, s) && Step(s, a) == Some(s') && Final(s, id)
    ensures id in s'.callers && s'.callers[id] == s.callers[id]
  {
    assert id < s.nextId && CallerOk(s.routing, s.wire, id, s.callers[id]);
    if a.Arrive? {
      assert id !in s.routing.subscriptions;
    } else if a.Take? {
      assert a.id != id && Taken(s, a.id).callers[id] == s.callers[id];
    }
  }

  /** One answer at most: what was answered stays as answered, what was given up is never answered. */
  lemma {:induction false} FinalIsFinal(first: Id, s: State, actions: seq<Action>, s': State, id: Id)
    requires Ok(first, s) && Run(s, actions) == Some(s') && Final(s, id)
    ensures id in s'.callers && s'.callers[id] == s.callers[id]
    decreases |actions|
  {
    if actions != [] {
      var next := Step(s, actions[0]).value;
      StepOk(first, s, actions[0], next);
      StepKeepsFinal(first, s, actions[0], next, id);
      FinalIsFinal(first, next, actions[1..], s', id);
    }
  }

  /** A request that was given up is never answered, whatever still arrives for it. */
  lemma GivenUpStaysSo(first: Id, s: State, id: Id, s': State, more: seq<Action>, s'': State)
    requires Ok(first, s) && Step(s, Abandon(id)) == Some(s') && Run(s', more) == Some(s'')
    ensures id in s''.callers && s''.callers[id].Waiter? && s''.callers[id].status == Gone
  {
    StepOk(first, s, Abandon(id), s');
    FinalIsFinal(first, s', more, s'', id);
  }

  /** A late response to a request that was given up, here or before the client was multiplexed, reaches no caller at all. */
  lemma LateResponseReachesNobody(first: Id, actions: seq<Action>, s: State, r: Response)
    requires Run(Start(first), actions) == Some(s) && (Final(s, r.id) || r.id < first)
    ensures Routed(s, r).callers == s.callers
  {
    RunOk(first, Start(first), actions, s);
    if Final(s, r.id) {
      assert CallerOk(s.routing, s.wire, r.id, s.callers[r.id]);
    } else {
      assert r.id !in s.callers;
    }
  }
}
