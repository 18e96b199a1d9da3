/**
 The client before its first subscription: it reads the connection itself, for one request
 or for a batch sent to many panes whose responses may come back in any order.
 */
module DirectMode {
  import opened Wrappers
  import opened Client

  /** A line that arrives, if it parses as a response; a timeout is the end of the lines read in time. */
  type Line = Option<Response>

  datatype Failure = ConnectionClosed | Malformed | TimedOut | Server(message: string) | SendFailed(pane: string, message: string) | Unexpected(pane: string)

  // ---- one request ----

  function Replied(body: Body): Result<Body, Failure> {
    if body.Error? then Failure(Server(body.message)) else Success(body)
  }

  /** Responses to other ids, such as late ones to requests that timed out, are passed over. */
  function ReplyTo(lines: seq<Line>, id: Id, closes: bool): Result<Body, Failure> {
    if lines == [] then Failure(if closes then ConnectionClosed else TimedOut)
    else if lines[0].None? then Failure(Malformed)
    else if lines[0].value.id == id then Replied(lines[0].value.body)
    else ReplyTo(lines[1..], id, closes)
  }

  method Request(lines: seq<Line>, id: Id, closes: bool) returns (reply: Result<Body, Failure>)
    ensures reply == ReplyTo(lines, id, closes)
  {
    var i := 0;
    assert lines[0..] == lines;
    while i < |lines|
      invariant 0 <= i <= |lines|
      invariant ReplyTo(lines, id, closes) == ReplyTo(lines[i..], id, closes)
    {
      if lines[i].None? {
        return Failure(Malformed);
      }
      if lines[i].value.id == id {
        return if lines[i].value.body.Error? then Failure(Server(lines[i].value.body.message)) else Success(lines[i].value.body);
      }
      assert lines[i..][1..] == lines[i + 1..];
      i := i + 1;
    }
    return Failure(if closes then ConnectionClosed else TimedOut);
  }

  /** Lines that answer somebody else. */
  predicate ForOthers(lines: seq<Line>, id: Id) {
    forall i :: 0 <= i < |lines| ==> lines[i].Some? && lines[i].value.id != id
  }

  /**
   After lines for others, the first response with the id decides: an error is the failure, anything else the reply.
   A line that does not parse fails the request, and so does the end of the lines.
   */
  lemma {:induction false} ReplyIsFirstWithId(lines: seq<Line>, id: Id, closes: bool, k: nat)
    requires k <= |lines| && ForOthers(lines[..k], id)
    ensures k == |lines| ==> ReplyTo(lines, id, closes) == Failure(if closes then ConnectionClosed else TimedOut)
    ensures k < |lines| && lines[k].None? ==> ReplyTo(lines, id, closes) == Failure(Malformed)
    ensures k < |lines| && lines[k].Some? && lines[k].value.id == id ==>
              ReplyTo(lines, id, closes) ==
              match lines[k].value.body
              case Error(message) => Failure(Server(message))
              case reply => Success(reply)
    decreases k
  {
    if k > 0 {
      assert lines[..k][0] == lines[0] && lines[..k][1..] == lines[1..][..k - 1];
      assert forall i :: 0 <= i < k - 1 ==> lines[..k][1..][i] == lines[..k][i + 1];
      ReplyIsFirstWithId(lines[1..], id, closes, k - 1);
    }
  }

  // ---- a batch ----

  /** Ids are allocated one after the other, so the id of the pane at `i` is `first + i`. */
  predicate Mine(first: Id, count: nat, id: Id) {
    first <= id < first + count
  }

  /** What has been collected after some lines; a later response to an id replaces an earlier one. */
  function Results(lines: seq<Line>, first: Id, count: nat): map<Id, Body> {
    if lines == [] then map[]
    else
      var front, last := Results(lines[..|lines| - 1], first, count), lines[|lines| - 1];
      if last.Some? && Mine(first, count, last.value.id) then front[last.value.id := last.value.body] else front
  }

  /** Reads until every id has a result. */
  function Collected(lines: seq<Line>, read: nat, first: Id, count: nat, closes: bool): Result<map<Id, Body>, Failure>
    requires read <= |lines|
    decreases |lines| - read
  {
    var results := Results(lines[..read], first, count);
    if |results| >= count then Success(results)
    else if read == |lines| then Failure(if closes then ConnectionClosed else TimedOut)
    else if lines[read].None? then Failure(Malformed)
    else Collected(lines, read + 1, first, count, closes)
  }

  function Outcome(pane: string, body: Body): Result<string, Failure> {
    match body
    case Sent(to) => Success(to)
    case Error(message) => Failure(SendFailed(pane, message))
    case _ => Failure(Unexpected(pane))
  }

  /** The outcomes in the order of the panes, up to the first that failed. */
  function InOrder(panes: seq<string>, bodies: seq<Body>): Result<seq<string>, Failure>
    requires |bodies| == |panes|
  {
    if panes == [] then Success([])
    else
      match Outcome(panes[0], bodies[0])
      case Failure(e) => Failure(e)
      case Success(to) =>
        match InOrder(panes[1..], bodies[1..])
        case Failure(e) => Failure(e)
        case Success(rest) => Success([to] + rest)
  }

  ghost predicate Covers(results: map<Id, Body>, first: Id, count: nat) {
    forall id: Id :: Mine(first, count, id) ==> id in results
  }

  function BodiesOf(results: map<Id, Body>, first: Id, count: nat): (bodies: seq<Body>)
    requires Covers(results, first, count)
    ensures |bodies| == count
    ensures forall id: Id :: Mine(first, count, id) ==> bodies[id - first] == results[id]
  {
    if count == 0 then []
    else
      assert Mine(first, count, first + count - 1);
      assert forall id: Id :: Mine(first, count - 1, id) ==> Mine(first, count, id);
      BodiesOf(results, first, count - 1) + [results[first + count - 1]]
  }

  function Ids(first: Id, count: nat): (ids: set<Id>)
    ensures forall id: Id :: id in ids <==> Mine(first, count, id)
    ensures |ids| == count
  {
    if count == 0 then {} else Ids(first, count - 1) + {first + count - 1}
  }

  lemma {:induction false} ResultsAreMine(lines: seq<Line>, first: Id, count: nat)
    ensures forall id :: id in Results(lines, first, count) ==> Mine(first, count, id)
    ensures |Results(lines, first, count)| <= count
    ensures |Results(lines, first, count)| == count ==> Covers(Results(lines, first, count), first, count)
  {
    if lines != [] {
      ResultsAreMine(lines[..|lines| - 1], first, count);
    }
    var results := Results(lines, first, count);
    assert |results| == |results.Keys|;
    SubsetSize(results.Keys, Ids(first, count));
  }

  lemma {:induction false} SubsetSize(a: set<Id>, b: set<Id>)
    requires a <= b
    ensures |a| <= |b| && (|a| == |b| ==> a == b)
    decreases |a|
  {
    if a != {} {
      var x :| x in a;
      SubsetSize(a - {x}, b - {x});
      assert a == (a - {x}) + {x} && b == (b - {x}) + {x};
    } else if |b| == 0 {
      assert b == {};
    }
  }

  /** Sends to every pane at once and collects the responses by id. */
  method SendFiltered(panes: seq<string>, first: Id, lines: seq<Line>, closes: bool) returns (sent: Result<seq<string>, Failure>)
    ensures Collected(lines, 0, first, |panes|, closes).Failure? ==>
              sent == Failure(Collected(lines, 0, first, |panes|, closes).error)
    ensures Collected(lines, 0, first, |panes|, closes).Success? ==>
              var results := Collected(lines, 0, first, |panes|, closes).value;
              && Covers(results, first, |panes|)
              && sent == InOrder(panes, BodiesOf(results, first, |panes|))
  {
    var pending := SendAll(panes, first);
    var results := Collect(pending, first, |panes|, lines, closes);
    if results.Failure? {
      return Failure(results.error);
    }
    CollectedCovers(lines, 0, first, |panes|, closes);
    sent := OrderResults(panes, first, results.value);
  }

  /** Writes every request before reading anything, and remembers which pane each id is for. */
  method SendAll(panes: seq<string>, first: Id) returns (pending: map<Id, string>)
    ensures pending.Keys == Ids(first, |panes|)
    ensures forall id: Id :: Mine(first, |panes|, id) ==> pending[id] == panes[id - first]
  {
    pending := map[];
    var nextId := first;
    while nextId < first + |panes|
      invariant first <= nextId <= first + |panes|
      invariant forall id :: id in pending <==> first <= id < nextId
      invariant forall id :: id in pending ==> pending[id] == panes[id - first]
    {
      pending := pending[nextId := panes[nextId - first]];
      nextId := nextId + 1;
    }
  }

  method Collect(pending: map<Id, string>, ghost first: Id, ghost count: nat, lines: seq<Line>, closes: bool)
    returns (collected: Result<map<Id, Body>, Failure>)
    requires pending.Keys == Ids(first, count)
    ensures collected == Collected(lines, 0, first, count, closes)
  {
    assert |pending| == |pending.Keys| == count;
    var results: map<Id, Body> := map[];
    var read := 0;
    while |results| < |pending|
      invariant 0 <= read <= |lines|
      invariant results == Results(lines[..read], first, count)
      invariant Collected(lines, 0, first, count, closes) == Collected(lines, read, first, count, closes)
      decreases |lines| - read
    {
      if read == |lines| {
        return Failure(if closes then ConnectionClosed else TimedOut);
      }
      if lines[read].None? {
        return Failure(Malformed);
      }
      var response := lines[read].value;
      assert lines[..read + 1][..read] == lines[..read];
      if response.id in pending {
        results := results[response.id := response.body];
      }
      read := read + 1;
    }
    return Success(results);
  }

  /** What has been collected when reading stops covers every id. */
  lemma {:induction false} CollectedCovers(lines: seq<Line>, read: nat, first: Id, count: nat, closes: bool)
    requires read <= |lines| && Collected(lines, read, first, count, closes).Success?
    ensures Covers(Collected(lines, read, first, count, closes).value, first, count)
    decreases |lines| - read
  {
    ResultsAreMine(lines[..read], first, count);
    if |Results(lines[..read], first, count)| < count {
      CollectedCovers(lines, read + 1, first, count, closes);
    }
  }

  /** The sorted ids are those from `first` on, in the order they were sent. */
  method OrderResults(panes: seq<string>, first: Id, results: map<Id, Body>) returns (sent: Result<seq<string>, Failure>)
    requires Covers(results, first, |panes|)
    ensures sent == InOrder(panes, BodiesOf(results, first, |panes|))
  {
    ghost var bodies := BodiesOf(results, first, |panes|);
    var out: seq<string> := [];
    var i := 0;
    assert panes[0..] == panes && bodies[0..] == bodies;
    PrecededByNothing(InOrder(panes, bodies));
    while i < |panes|
      invariant 0 <= i <= |panes| && |bodies| == |panes|
      invariant InOrder(panes, bodies) == Preceded(out, InOrder(panes[i..], bodies[i..]))
    {
      assert panes[i..][1..] == panes[i + 1..] && bodies[i..][1..] == bodies[i + 1..];
      assert Mine(first, |panes|, first + i) && bodies[i..][0] == results[first + i];
      match results[first + i] {
        case Sent(to) =>
          PrecededBy(out, to, InOrder(panes[i + 1..], bodies[i + 1..]));
          out := out + [to];
        case Error(message) => return Failure(SendFailed(panes[i], message));
        case _ => return Failure(Unexpected(panes[i]));
      }
      i := i + 1;
    }
    assert out + [] == out;
    return Success(out);
  }

  function Preceded(out: seq<string>, rest: Result<seq<string>, Failure>): Result<seq<string>, Failure> {
    match rest
    case Failure(e) => Failure(e)
    case Success(more) => Success(out + more)
  }

  lemma PrecededByNothing(rest: Result<seq<string>, Failure>)
    ensures Preceded([], rest) == rest
  {
    if rest.Success? {
      assert [] + rest.value == rest.value;
    }
  }

  lemma PrecededBy(out: seq<string>, to: string, rest: Result<seq<string>, Failure>)
    ensures Preceded(out, Preceded([to], rest)) == Preceded(out + [to], rest)
  {
    if rest.Success? {
      assert out + ([to] + rest.value) == out + [to] + rest.value;
    }
  }

  // ---- any order of arrival ----

  ghost predicate Answers(lines: seq<Line>, id: Id, body: Body) {
    exists k :: 0 <= k < |lines| && lines[k] == Some(Response(id, body))
  }

  /** Every id gets its one response, among whatever else arrives. */
  ghost predicate AnswersAll(lines: seq<Line>, first: Id, bodies: seq<Body>) {
    && (forall k :: 0 <= k < |lines| ==> lines[k].Some?)
    && (forall k :: 0 <= k < |lines| && Mine(first, |bodies|, lines[k].value.id) ==>
          lines[k].value.body == bodies[lines[k].value.id - first])
    && (forall id: Id :: Mine(first, |bodies|, id) ==> Answers(lines, id, bodies[id - first]))
  }

  lemma {:induction false} ResultsOf(lines: seq<Line>, first: Id, bodies: seq<Body>)
    requires forall k :: 0 <= k < |lines| ==> lines[k].Some?
    requires forall k :: 0 <= k < |lines| && Mine(first, |bodies|, lines[k].value.id) ==>
               lines[k].value.body == bodies[lines[k].value.id - first]
    ensures forall id :: id in Results(lines, first, |bodies|) ==>
              Mine(first, |bodies|, id) && Results(lines, first, |bodies|)[id] == bodies[id - first]
    ensures forall k :: 0 <= k < |lines| && Mine(first, |bodies|, lines[k].value.id) ==>
              lines[k].value.id in Results(lines, first, |bodies|)
  {
    if lines != [] {
      ResultsOf(lines[..|lines| - 1], first, bodies);
    }
  }

  lemma PrefixBodies(lines: seq<Line>, read: nat, first: Id, bodies: seq<Body>)
    requires read <= |lines| && AnswersAll(lines, first, bodies)
    ensures forall id: Id :: id in Results(lines[..read], first, |bodies|) ==>
              Mine(first, |bodies|, id) && Results(lines[..read], first, |bodies|)[id] == bodies[id - first]
  {
    var front := lines[..read];
    assert forall k :: 0 <= k < read ==> front[k] == lines[k];
    ResultsOf(front, first, bodies);
  }

  lemma EnoughLines(lines: seq<Line>, first: Id, bodies: seq<Body>)
    requires AnswersAll(lines, first, bodies)
    ensures |Results(lines, first, |bodies|)| >= |bodies|
  {
    AllAnswered(lines, first, bodies);
    var results := Results(lines, first, |bodies|);
    assert |results| == |results.Keys|;
    SubsetSize(Ids(first, |bodies|), results.Keys);
  }

  lemma {:induction false} CollectedOf(lines: seq<Line>, read: nat, first: Id, bodies: seq<Body>, closes: bool)
    requires read <= |lines| && AnswersAll(lines, first, bodies)
    ensures
      var c := Collected(lines, read, first, |bodies|, closes);
      && c.Success?
      && Covers(c.value, first, |bodies|)
      && (forall id: Id :: Mine(first, |bodies|, id) ==> c.value[id] == bodies[id - first])
    decreases |lines| - read
  {
    if |Results(lines[..read], first, |bodies|)| >= |bodies| {
      PrefixBodies(lines, read, first, bodies);
      ResultsAreMine(lines[..read], first, |bodies|);
    } else if read == |lines| {
      assert lines[..read] == lines;
      EnoughLines(lines, first, bodies);
    } else {
      CollectedOf(lines, read + 1, first, bodies, closes);
    }
  }

  lemma AllAnswered(lines: seq<Line>, first: Id, bodies: seq<Body>)
    requires AnswersAll(lines, first, bodies)
    ensures Covers(Results(lines, first, |bodies|), first, |bodies|)
  {
    ResultsOf(lines, first, bodies);
    forall id: Id | Mine(first, |bodies|, id)
      ensures id in Results(lines, first, |bodies|)
    {
      assert Answers(lines, id, bodies[id - first]);
      var k :| 0 <= k < |lines| && lines[k] == Some(Response(id, bodies[id - first]));
    }
  }

  /** In whatever order the responses arrive, and whatever arrives between them, the batch reports in the order it was sent. */
  lemma AnyArrivalOrder(panes: seq<string>, first: Id, lines: seq<Line>, bodies: seq<Body>, closes: bool)
    requires |bodies| == |panes| && AnswersAll(lines, first, bodies)
    ensures
      var c := Collected(lines, 0, first, |panes|, closes);
      && c.Success?
      && Covers(c.value, first, |panes|)
      && InOrder(panes, BodiesOf(c.value, first, |panes|)) == InOrder(panes, bodies)
  {
    CollectedOf(lines, 0, first, bodies, closes);
    var c := Collected(lines, 0, first, |panes|, closes);
    var collected := BodiesOf(c.value, first, |panes|);
    forall i | 0 <= i < |panes|
      ensures collected[i] == bodies[i]
    {
      assert Mine(first, |panes|, first + i);
    }
    assert collected == bodies;
  }

  /** A batch succeeds exactly when every pane was sent to, and otherwise fails with the first pane that was not. */
  lemma {:induction false} BatchSucceedsIff(panes: seq<string>, bodies: seq<Body>)
    requires |bodies| == |panes|
    ensures InOrder(panes, bodies).Success? <==> forall i :: 0 <= i < |bodies| ==> bodies[i].Sent?
    ensures InOrder(panes, bodies).Success? ==>
              |InOrder(panes, bodies).value| == |panes|
              && forall i :: 0 <= i < |panes| ==> bodies[i] == Sent(InOrder(panes, bodies).value[i])
    ensures InOrder(panes, bodies).Failure? ==>
              exists k :: 0 <= k < |panes| && FailsWith(panes[k], bodies[k], InOrder(panes, bodies).error)
                          && forall i :: 0 <= i < k ==> bodies[i].Sent?
    decreases |panes|
  {
    if panes != [] {
      BatchSucceedsIff(panes[1..], bodies[1..]);
      if bodies[0].Sent? && InOrder(panes, bodies).Failure? {
        var k :| 0 <= k < |panes| - 1 && FailsWith(panes[1..][k], bodies[1..][k], InOrder(panes[1..], bodies[1..]).error)
                 && forall i :: 0 <= i < k ==> bodies[1..][i].Sent?;
        assert FailsWith(panes[k + 1], bodies[k + 1], InOrder(panes, bodies).error);
        assert forall i :: 0 < i < k + 1 ==> bodies[i] == bodies[1..][i - 1];
      }
      assert forall i :: 0 < i < |bodies| ==> bodies[i] == bodies[1..][i - 1];
    }
  }

  /** The error of a pane that was not sent to: the message it answered with, or that it answered something else. */
  predicate FailsWith(pane: string, body: Body, e: Failure) {
    !body.Sent? && e == if body.Error? then SendFailed(pane, body.message) else Unexpected(pane)
  }

  // ---- when the reading stops ----

  /** Every id of the batch has been answered. */
  ghost predicate AllIn(lines: seq<Line>, first: Id, count: nat) {
    forall id: Id :: Mine(first, count, id) ==> exists k :: 0 <= k < |lines| && IsFor(lines[k], id)
  }

  predicate IsFor(line: Line, id: Id) {
    line.Some? && line.value.id == id
  }

  lemma {:induction false} ResultIff(lines: seq<Line>, first: Id, count: nat, id: Id)
    requires Mine(first, count, id)
    ensures id in Results(lines, first, count) <==> exists k :: 0 <= k < |lines| && IsFor(lines[k], id)
    decreases |lines|
  {
    if lines != [] {
      var n := |lines| - 1;
      ResultIff(lines[..n], first, count, id);
      assert forall k :: 0 <= k < n ==> lines[..n][k] == lines[k];
    }
  }

  lemma FullIff(lines: seq<Line>, first: Id, count: nat)
    ensures |Results(lines, first, count)| >= count <==> AllIn(lines, first, count)
  {
    var results := Results(lines, first, count);
    ResultsAreMine(lines, first, count);
    forall id: Id | Mine(first, count, id)
      ensures id in results <==> exists k :: 0 <= k < |lines| && IsFor(lines[k], id)
    {
      ResultIff(lines, first, count, id);
    }
    if AllIn(lines, first, count) {
      assert |results| == |results.Keys|;
      SubsetSize(Ids(first, count), results.Keys);
    }
  }

  /**
   A batch reads on until every id is answered: it succeeds as soon as they are, and fails exactly when before that a line
   does not parse or the lines end.
   */
  lemma {:induction false} CollectedIff(lines: seq<Line>, read: nat, first: Id, count: nat, closes: bool, stop: nat)
    requires read <= stop <= |lines| && forall r :: read <= r < stop ==> lines[r].Some? && !AllIn(lines[..r], first, count)
    ensures AllIn(lines[..stop], first, count) ==>
              Collected(lines, read, first, count, closes) == Success(Results(lines[..stop], first, count))
    ensures !AllIn(lines[..stop], first, count) && stop == |lines| ==>
              Collected(lines, read, first, count, closes) == Failure(if closes then ConnectionClosed else TimedOut)
    ensures !AllIn(lines[..stop], first, count) && stop < |lines| && lines[stop].None? ==>
              Collected(lines, read, first, count, closes) == Failure(Malformed)
    decreases stop - read
  {
    FullIff(lines[..read], first, count);
    if read < stop {
      CollectedIff(lines, read + 1, first, count, closes, stop);
    }
  }
}
