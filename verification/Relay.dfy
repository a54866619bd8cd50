/** The event relay: a bounded buffer of recent events for latecomers, and one bounded queue per
    connected client. A full queue costs that client an event and nobody else anything. */
module Relay {
  import opened Options
  import Pipeline

  datatype Event = Event(requestId: nat, payload: Pipeline.Event)

  predicate Wants(filter: Option<nat>, e: Event) {
    filter.None? || filter.value == e.requestId
  }

  /** The events a client with this filter asked for, in order. */
  function Wanted(filter: Option<nat>, es: seq<Event>): seq<Event> {
    if es == [] then []
    else Wanted(filter, es[..|es| - 1]) + if Wants(filter, es[|es| - 1]) then [es[|es| - 1]] else []
  }

  /** A capacity of zero or less means the queue has no bound. */
  predicate QueueFull(capacity: int, queue: seq<Event>) {
    0 < capacity <= |queue|
  }

  function Offer(capacity: int, queue: seq<Event>, dropped: nat, e: Event): (seq<Event>, nat) {
    if QueueFull(capacity, queue) then (queue, dropped + 1) else (queue + [e], dropped)
  }

  function LastOf(es: seq<Event>, bound: nat): seq<Event> {
    if |es| <= bound then es else es[|es| - bound..]
  }

  // ---------------------------------------------------------------- the running relay

  class Subscriber {
    const filter: Option<nat>
    const capacity: int
    var queue: seq<Event>
    var dropped: nat

    constructor (filter: Option<nat>, capacity: int)
      ensures this.filter == filter && this.capacity == capacity && queue == [] && dropped == 0
    {
      this.filter, this.capacity, queue, dropped := filter, capacity, [], 0;
    }

    method PutOrDrop(e: Event)
      modifies this
      ensures (queue, dropped) == Offer(capacity, old(queue), old(dropped), e)
    {
      if capacity <= 0 || |queue| < capacity {
        queue := queue + [e];
      } else {
        dropped := dropped + 1;
      }
    }
  }

  class Hub {
    const bound: nat
    var subscribers: set<Subscriber>
    var recent: seq<Event>
    var eventsSeen: nat
    ghost var all: seq<Event>

    /** The buffer is exactly the last events, in order; nothing is counted twice. */
    ghost predicate Valid()
      reads this
    {
      recent == LastOf(all, bound) && eventsSeen == |all|
    }

    constructor (bound: nat)
      ensures Valid() && subscribers == {} && all == [] && this.bound == bound
    {
      this.bound, subscribers, recent, eventsSeen, all := bound, {}, [], 0, [];
    }

    method Add(s: Subscriber)
      requires Valid()
      modifies this`subscribers
      ensures Valid() && subscribers == old(subscribers) + {s}
    {
      subscribers := subscribers + {s};
    }

    method Remove(s: Subscriber)
      requires Valid()
      modifies this`subscribers
      ensures Valid() && subscribers == old(subscribers) - {s}
    {
      subscribers := subscribers - {s};
    }

    method Replay(filter: Option<nat>) returns (es: seq<Event>)
      requires Valid()
      ensures es == Wanted(filter, LastOf(all, bound))
    {
      es := [];
      for n := 0 to |recent|
        invariant es == Wanted(filter, recent[..n])
      {
        assert recent[..n + 1][..n] == recent[..n];
        if filter.None? || recent[n].requestId == filter.value {
          es := es + [recent[n]];
        }
      }
      assert recent[..|recent|] == recent;
    }

    /** Count the event and put it into the buffer, at the cost of the oldest when that is full. */
    method Remember(e: Event)
      requires Valid()
      modifies this`recent, this`eventsSeen, this`all
      ensures Valid() && all == old(all) + [e]
    {
      eventsSeen := eventsSeen + 1;
      recent := recent + [e];
      all := all + [e];
      if |recent| > bound {
        recent := recent[|recent| - bound..];
      }
    }

    /** Every subscriber that wants the event is offered it exactly once; what becomes of the
        offer depends on that subscriber's own queue alone. */
    method FanOut(e: Event)
      requires Valid()
      modifies this`recent, this`eventsSeen, this`all, subscribers
      ensures Valid() && all == old(all) + [e]
      ensures forall s | s in subscribers ::
                (s.queue, s.dropped) == if Wants(s.filter, e) then Offer(s.capacity, old(s.queue), old(s.dropped), e)
                                        else (old(s.queue), old(s.dropped))
    {
      Remember(e);
      var targets := set s | s in subscribers && Wants(s.filter, e);
      var todo := targets;
      while todo != {}
        invariant todo <= targets
        invariant Valid() && all == old(all) + [e]
        invariant forall s | s in targets - todo :: (s.queue, s.dropped) == Offer(s.capacity, old(s.queue), old(s.dropped), e)
        invariant forall s | s in subscribers && s !in targets - todo :: s.queue == old(s.queue) && s.dropped == old(s.dropped)
        decreases |todo|
      {
        var s :| s in todo;
        todo := todo - {s};
        s.PutOrDrop(e);
      }
    }
  }

  // ---------------------------------------------------------------- whole runs

  /** A client over time. Auxiliary: what was replayed to it and what it has taken out so far, and how
      many events had been published when it joined and when the replay was made up. */
  datatype Client = Client(
    filter: Option<nat>, capacity: int, queue: seq<Event>, dropped: nat, taken: seq<Event>, joinedAt: nat,
    replayed: seq<Event>, replayedAt: Option<nat>)

  datatype State = State(bound: nat, clients: map<nat, Client>, all: seq<Event>)

  function Init(bound: nat): State {
    State(bound, map[], [])
  }

  datatype Step =
    | Join(id: nat, filter: Option<nat>, capacity: int)
    | Leave(id: nat)
    | Replay(id: nat)
    | Take(id: nat)
    | Publish(event: Event)

  function Receive(c: Client, e: Event): Client {
    if Wants(c.filter, e)
    then var (queue, dropped) := Offer(c.capacity, c.queue, c.dropped, e); c.(queue := queue, dropped := dropped)
    else c
  }

  /** Once, between joining and the first event from the queue; the client's queue already fills up
      in the meantime. */
  function ReplayTo(c: Client, s: State): Client {
    if c.replayedAt.Some? then c
    else c.(replayed := Wanted(c.filter, LastOf(s.all, s.bound)), replayedAt := Some(|s.all|))
  }

  function TakeOne(c: Client): Client {
    if c.queue == [] || c.replayedAt.None? then c else c.(queue := c.queue[1..], taken := c.taken + [c.queue[0]])
  }

  function Do(s: State, step: Step): State {
    match step
    case Join(id, filter, capacity) =>
      if id in s.clients then s else s.(clients := s.clients[id := Client(filter, capacity, [], 0, [], |s.all|, [], None)])
    case Leave(id) => s.(clients := s.clients - {id})
    case Replay(id) => if id in s.clients then s.(clients := s.clients[id := ReplayTo(s.clients[id], s)]) else s
    case Take(id) => if id in s.clients then s.(clients := s.clients[id := TakeOne(s.clients[id])]) else s
    case Publish(e) => State(s.bound, map id | id in s.clients :: Receive(s.clients[id], e), s.all + [e])
  }

  function Run(s: State, steps: seq<Step>): State
    decreases |steps|
  {
    if steps == [] then s else Run(Do(s, steps[0]), steps[1..])
  }

  /** In order and without repetition, possibly with gaps. */
  predicate Subsequence(a: seq<Event>, b: seq<Event>) {
    if a == [] then true
    else if b == [] then false
    else if a[|a| - 1] == b[|b| - 1] && Subsequence(a[..|a| - 1], b[..|b| - 1]) then true
    else Subsequence(a, b[..|b| - 1])
  }

  /** Everything wanted since joining was either enqueued or counted as dropped. */
  predicate Accounted(c: Client, all: seq<Event>) {
    c.joinedAt <= |all| &&
    var wanted, got := Wanted(c.filter, all[c.joinedAt..]), c.taken + c.queue;
    && |got| + c.dropped == |wanted|
    && Subsequence(got, wanted)
    && (c.dropped == 0 ==> got == wanted)
    && (c.capacity > 0 ==> |c.queue| <= c.capacity)
  }

  lemma ReceiveAccounted(c: Client, all: seq<Event>, e: Event)
    requires Accounted(c, all)
    ensures Accounted(Receive(c, e), all + [e])
  {
    var since := all[c.joinedAt..];
    assert (all + [e])[c.joinedAt..] == since + [e];
    assert (since + [e])[..|since|] == since;
    var wanted, got := Wanted(c.filter, since), c.taken + c.queue;
    if Wants(c.filter, e) {
      assert Wanted(c.filter, since + [e]) == wanted + [e];
      assert (wanted + [e])[..|wanted|] == wanted;
      assert (got + [e])[..|got|] == got;
      assert c.taken + (c.queue + [e]) == got + [e];
    } else {
      assert Wanted(c.filter, since + [e]) == wanted;
    }
  }

  ghost predicate AllAccounted(s: State) {
    forall id | id in s.clients :: Accounted(s.clients[id], s.all)
  }

  lemma StepAccounted(s: State, step: Step)
    requires AllAccounted(s)
    ensures AllAccounted(Do(s, step))
  {
    match step {
      case Join(id, filter, capacity) =>
        assert s.all[|s.all|..] == [];
      case Take(id) =>
        if id in s.clients && TakeOne(s.clients[id]) != s.clients[id] {
          var c := s.clients[id];
          assert TakeOne(c).taken + TakeOne(c).queue == c.taken + c.queue;
        }
      case Publish(e) =>
        forall id | id in s.clients ensures Accounted(Receive(s.clients[id], e), s.all + [e]) {
          ReceiveAccounted(s.clients[id], s.all, e);
        }
      case Leave(id) =>
      case Replay(id) =>
    }
  }

  lemma {:induction false} RunAccounted(s: State, steps: seq<Step>)
    requires AllAccounted(s)
    ensures AllAccounted(Run(s, steps))
    decreases |steps|
  {
    if steps != [] {
      StepAccounted(s, steps[0]);
      RunAccounted(Do(s, steps[0]), steps[1..]);
    }
  }

  /** After any run: what a client got and what was dropped for it add up to what it wanted since
      it joined; what it got is in order, and complete if nothing was dropped. */
  lemma NothingGoesMissing(bound: nat, steps: seq<Step>, id: nat)
    requires id in Run(Init(bound), steps).clients
    ensures var s := Run(Init(bound), steps); Accounted(s.clients[id], s.all)
  {
    RunAccounted(Init(bound), steps);
  }

  /** The steps that concern this client: its own, and every publication. */
  function Mine(steps: seq<Step>, id: nat): seq<Step> {
    if steps == [] then []
    else (if steps[0].Publish? || steps[0].id == id then [steps[0]] else []) + Mine(steps[1..], id)
  }

  /** Other clients, however slow or full, change nothing for this one: it stands exactly where
      it would stand had it been the only client. */
  lemma {:induction false} OthersDoNotMatter(s: State, t: State, steps: seq<Step>, id: nat)
    requires s.bound == t.bound && s.all == t.all && Lookup(s.clients, id) == Lookup(t.clients, id)
    ensures Run(s, steps).all == Run(t, Mine(steps, id)).all
    ensures Lookup(Run(s, steps).clients, id) == Lookup(Run(t, Mine(steps, id)).clients, id)
    decreases |steps|
  {
    if steps != [] {
      if steps[0].Publish? || steps[0].id == id {
        assert Mine(steps, id)[1..] == Mine(steps[1..], id);
        OthersDoNotMatter(Do(s, steps[0]), Do(t, steps[0]), steps[1..], id);
      } else {
        assert Mine(steps, id) == Mine(steps[1..], id);
        OthersDoNotMatter(Do(s, steps[0]), t, steps[1..], id);
      }
    }
  }

  /** A client is served as what it asked to be for as long as it stays. */
  lemma {:induction false} ClientsAreKept(s: State, steps: seq<Step>, id: nat)
    requires id in s.clients && forall i | 0 <= i < |steps| :: steps[i] != Leave(id)
    ensures var t := Run(s, steps);
            && id in t.clients && t.clients[id].filter == s.clients[id].filter
            && t.clients[id].capacity == s.clients[id].capacity && t.clients[id].joinedAt == s.clients[id].joinedAt
    decreases |steps|
  {
    if steps != [] {
      assert steps[0] != Leave(id);
      ClientsAreKept(Do(s, steps[0]), steps[1..], id);
    }
  }

  lemma JoinsAsAsked(s: State, id: nat, filter: Option<nat>, capacity: int, steps: seq<Step>)
    requires id !in s.clients && forall i | 0 <= i < |steps| :: steps[i] != Leave(id)
    ensures var t := Run(Do(s, Join(id, filter, capacity)), steps);
            && id in t.clients && t.clients[id].filter == filter
            && t.clients[id].capacity == capacity && t.clients[id].joinedAt == |s.all|
  {
    ClientsAreKept(Do(s, Join(id, filter, capacity)), steps, id);
  }

  // ---------------------------------------------------------------- latecomers

  /** The replay was what the buffer held at the time, and no event was missed in between. */
  predicate ReplayOk(c: Client, bound: nat, all: seq<Event>) {
    && c.joinedAt <= |all|
    && (c.replayedAt.Some? ==>
          && c.joinedAt <= c.replayedAt.value <= |all|
          && c.replayed == Wanted(c.filter, LastOf(all[..c.replayedAt.value], bound)))
  }

  ghost predicate AllReplaysOk(s: State) {
    forall id | id in s.clients :: ReplayOk(s.clients[id], s.bound, s.all)
  }

  lemma StepReplays(s: State, step: Step)
    requires AllReplaysOk(s)
    ensures AllReplaysOk(Do(s, step))
  {
    match step
    case Publish(e) =>
      forall id | id in s.clients ensures ReplayOk(Receive(s.clients[id], e), s.bound, s.all + [e]) {
        var c := s.clients[id];
        assert ReplayOk(c, s.bound, s.all);
        assert c.replayedAt.Some? ==> (s.all + [e])[..c.replayedAt.value] == s.all[..c.replayedAt.value];
      }
    case Replay(id) =>
      assert s.all[..|s.all|] == s.all;
    case _ =>
  }

  lemma {:induction false} RunReplays(s: State, steps: seq<Step>)
    requires AllReplaysOk(s)
    ensures AllReplaysOk(Run(s, steps)) && Run(s, steps).bound == s.bound
    decreases |steps|
  {
    if steps != [] {
      StepReplays(s, steps[0]);
      RunReplays(Do(s, steps[0]), steps[1..]);
    }
  }

  lemma {:induction false} WantedHas(filter: Option<nat>, es: seq<Event>, e: Event)
    ensures e in Wanted(filter, es) <==> e in es && Wants(filter, e)
  {
    if es != [] {
      var n := |es| - 1;
      WantedHas(filter, es[..n], e);
      assert es == es[..n] + [es[n]];
    }
  }

  /** A client without a filter wants everything, one with a filter just what is about its request. */
  lemma {:induction false} FirehoseWantsAll(es: seq<Event>)
    ensures Wanted(None, es) == es
  {
    if es != [] {
      FirehoseWantsAll(es[..|es| - 1]);
    }
  }

  lemma WatcherWantsItsOwn(request: nat, es: seq<Event>, e: Event)
    ensures e in Wanted(Some(request), es) <==> e in es && e.requestId == request
  {
    WantedHas(Some(request), es, e);
  }

  /** What nothing was dropped from, an unfiltered client got in full. */
  lemma FirehoseGetsAll(bound: nat, steps: seq<Step>, id: nat)
    requires id in Run(Init(bound), steps).clients
    requires Run(Init(bound), steps).clients[id].filter.None? && Run(Init(bound), steps).clients[id].dropped == 0
    ensures var s := Run(Init(bound), steps);
            var c := s.clients[id];
            c.joinedAt <= |s.all| && c.taken + c.queue == s.all[c.joinedAt..]
  {
    NothingGoesMissing(bound, steps, id);
    var s := Run(Init(bound), steps);
    FirehoseWantsAll(s.all[s.clients[id].joinedAt..]);
  }

  /** Everything the client has been sent or will find in its queue. */
  function Seen(c: Client): seq<Event> {
    c.replayed + (c.taken + c.queue)
  }

  /** The request had not begun to fall out of the buffer when the client joined. */
  predicate InTime(c: Client, bound: nat, all: seq<Event>) {
    c.joinedAt <= |all| && c.replayedAt.Some? && forall i: nat | i < c.joinedAt && i + bound < c.replayedAt.value :: !Wants(c.filter, all[i])
  }

  lemma InTimeSeesAll(c: Client, bound: nat, all: seq<Event>, e: Event)
    requires Accounted(c, all) && ReplayOk(c, bound, all) && InTime(c, bound, all) && c.dropped == 0
    ensures e in Seen(c) <==> e in all && Wants(c.filter, e)
  {
    var at := c.replayedAt.value;
    var buffer := LastOf(all[..at], bound);
    WantedHas(c.filter, buffer, e);
    WantedHas(c.filter, all[c.joinedAt..], e);
    if e in all && Wants(c.filter, e) {
      var i: nat :| i < |all| && all[i] == e;
      if i < c.joinedAt {
        var k := if at <= bound then i else i - (at - bound);
        assert buffer[k] == e;
      } else {
        assert all[c.joinedAt..][i - c.joinedAt] == e;
      }
    }
  }

  function Payloads(es: seq<Event>): (ps: seq<Pipeline.Event>)
    ensures |ps| == |es| && forall i | 0 <= i < |es| :: ps[i] == es[i].payload
  {
    seq(|es|, i requires 0 <= i < |es| => es[i].payload)
  }

  /** The relay and the browser together. A client that watches one request, even if it joined late,
      ends up with the view the emitted order gives, provided nothing was dropped for it, the request
      was still in the buffer, and every event reached the relay, in whatever order and however often. */
  lemma LatecomersSeeTheRun(bound: nat, steps: seq<Step>, id: nat, emitted: seq<Pipeline.Event>)
    requires id in Run(Init(bound), steps).clients
    requires var s := Run(Init(bound), steps); var c := s.clients[id];
             && c.dropped == 0 && c.filter.Some? && InTime(c, bound, s.all)
             && forall x :: x in emitted <==> Event(c.filter.value, x) in s.all
    requires Pipeline.StrictlyAscending(emitted)
    ensures var c := Run(Init(bound), steps).clients[id];
            Pipeline.Fold(Pipeline.SortBySeq(Payloads(Seen(c)))) == Pipeline.Fold(emitted)
  {
    var s := Run(Init(bound), steps);
    var c := s.clients[id];
    NothingGoesMissing(bound, steps, id);
    RunReplays(Init(bound), steps);
    var ps := Payloads(Seen(c));
    forall x ensures x in ps <==> x in emitted {
      InTimeSeesAll(c, bound, s.all, Event(c.filter.value, x));
      if x in ps {
        var i :| 0 <= i < |ps| && ps[i] == x;
        InTimeSeesAll(c, bound, s.all, Seen(c)[i]);
        assert Seen(c)[i] in Seen(c);
        assert Seen(c)[i] == Event(c.filter.value, x);
      }
      if Event(c.filter.value, x) in Seen(c) {
        var i :| 0 <= i < |Seen(c)| && Seen(c)[i] == Event(c.filter.value, x);
        assert ps[i] == x;
      }
    }
    Pipeline.DeliveryDoesNotMatter(ps, emitted);
  }
}
