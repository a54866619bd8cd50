/** The audit log as a hash chain: every event stores the hash of its own fields joined to the
    hash before it. The hash function is a parameter; nothing is assumed about it except where
    a lemma says so. */
module AuditChain {
  import opened Options

  type Digest = string

  const GENESIS: Digest := "0000000000000000000000000000000000000000000000000000000000000000"

  /** The exact field set that is hashed. Structured values are opaque text here. */
  datatype Body = Body(
    eventId: nat, eventType: string, createdAt: int,
    payment: Option<nat>, user: Option<nat>, agent: Option<nat>,
    decision: Option<string>, reasons: seq<string>, risk: string,
    policyVersion: Option<string>, payload: string)

  /** One stored row. The sequence number orders the rows and is not itself hashed. */
  datatype Event = Event(seqNo: int, body: Body, prev: Digest, hash: Digest)

  type Hash = (Body, Digest) -> Digest

  /** The hash a link has to build on. */
  function Before(log: seq<Event>, i: nat): Digest
    requires i <= |log|
  {
    if i == 0 then GENESIS else log[i - 1].hash
  }

  function Head(log: seq<Event>): Digest {
    Before(log, |log|)
  }

  predicate LinkOk(h: Hash, log: seq<Event>, i: nat)
    requires i < |log|
  {
    log[i].prev == Before(log, i) && log[i].hash == h(log[i].body, Before(log, i))
  }

  predicate IsChain(h: Hash, log: seq<Event>) {
    forall i | 0 <= i < |log| :: LinkOk(h, log, i)
  }

  /** A limit of zero means no limit. */
  function Considered(log: seq<Event>, limit: nat): seq<Event> {
    if limit == 0 || |log| <= limit then log else log[..limit]
  }

  datatype Report =
    | Valid(checked: nat, head: Digest)
    | Broken(checked: nat, seqNo: int, eventId: nat, expected: Digest, stored: Digest)

  /** The report points at this event, and everything before it is in order. */
  predicate FirstBreak(h: Hash, log: seq<Event>, i: nat, r: Report) {
    && i < |log| && !LinkOk(h, log, i)
    && (forall j | 0 <= j < i :: LinkOk(h, log, j))
    && r.Broken? && r.seqNo == log[i].seqNo && r.eventId == log[i].body.eventId
    && r.expected == h(log[i].body, Before(log, i)) && r.stored == log[i].hash
  }

  /** Recompute every link: valid exactly when all of them hold, and otherwise the report
      names the first one that does not. */
  method VerifyChain(h: Hash, log: seq<Event>, limit: nat) returns (r: Report)
    ensures r.checked == |Considered(log, limit)|
    ensures r.Valid? <==> IsChain(h, Considered(log, limit))
    ensures r.Valid? ==> r.head == Head(Considered(log, limit))
    ensures r.Broken? ==> exists i :: FirstBreak(h, Considered(log, limit), i, r)
  {
    var events := Considered(log, limit);
    var prev := GENESIS;
    for n := 0 to |events|
      invariant prev == Before(events, n)
      invariant forall i | 0 <= i < n :: LinkOk(h, events, i)
    {
      var expected := h(events[n].body, prev);
      if events[n].prev != prev || events[n].hash != expected {
        r := Broken(|events|, events[n].seqNo, events[n].body.eventId, expected, events[n].hash);
        assert FirstBreak(h, events, n, r);
        return;
      }
      prev := events[n].hash;
    }
    r := Valid(|events|, prev);
  }

  lemma PrefixIsChain(h: Hash, log: seq<Event>, n: nat)
    requires IsChain(h, log) && n <= |log|
    ensures IsChain(h, log[..n])
  {
    forall i | 0 <= i < n ensures LinkOk(h, log[..n], i) {
      assert LinkOk(h, log, i);
    }
  }

  // ---------------------------------------------------------------- tamper evidence

  /** Equal in everything that is hashed. */
  predicate SameEvents(a: seq<Event>, b: seq<Event>) {
    |a| == |b| && forall i | 0 <= i < |a| :: a[i].body == b[i].body && a[i].prev == b[i].prev && a[i].hash == b[i].hash
  }

  /** Two stored events that hash alike although what was hashed differs. */
  predicate CollideAt(a: seq<Event>, b: seq<Event>, i: nat, j: nat) {
    && i < |a| && j < |b| && a[i].hash == b[j].hash
    && (a[i].body != b[j].body || a[i].prev != b[j].prev)
  }

  predicate HitsGenesis(a: seq<Event>) {
    exists i :: 0 <= i < |a| && a[i].hash == GENESIS
  }

  ghost predicate BreaksHash(a: seq<Event>, b: seq<Event>) {
    HitsGenesis(a) || HitsGenesis(b) || exists i, j :: CollideAt(a, b, i, j)
  }

  /** Two logs that both verify and end in the same hash are the same log, whatever their
      lengths, unless a broken hash is lying there for everyone to see: walk back from the end. */
  lemma {:induction false} SameHeadSameLog(h: Hash, a: seq<Event>, b: seq<Event>)
    requires IsChain(h, a) && IsChain(h, b)
    requires Head(a) == Head(b)
    ensures SameEvents(a, b) || BreaksHash(a, b)
    decreases |a|
  {
    if a == [] || b == [] {
      if a != [] {
        assert a[|a| - 1].hash == GENESIS;
      }
      if b != [] {
        assert b[|b| - 1].hash == GENESIS;
      }
    } else {
      var m, n := |a| - 1, |b| - 1;
      var x, y := a[..m], b[..n];
      if CollideAt(a, b, m, n) {
        return;
      }
      assert LinkOk(h, a, m) && LinkOk(h, b, n);
      PrefixIsChain(h, a, m);
      PrefixIsChain(h, b, n);
      SameHeadSameLog(h, x, y);
      if SameEvents(x, y) {
        assert forall i | 0 <= i < m :: a[i] == x[i] && b[i] == y[i];
      } else if HitsGenesis(x) {
        var i :| 0 <= i < |x| && x[i].hash == GENESIS;
        assert a[i].hash == GENESIS;
      } else if HitsGenesis(y) {
        var i :| 0 <= i < |y| && y[i].hash == GENESIS;
        assert b[i].hash == GENESIS;
      } else {
        var i, j :| CollideAt(x, y, i, j);
        assert CollideAt(a, b, i, j);
      }
    }
  }

  /** The idealised hash: injective, and never the genesis value. */
  ghost predicate Ideal(h: Hash) {
    && (forall a, p, b, q :: h(a, p) == h(b, q) ==> a == b && p == q)
    && (forall a, p :: h(a, p) != GENESIS)
  }

  /** With an ideal hash the head alone pins down the whole history. */
  lemma HeadPinsHistory(h: Hash, a: seq<Event>, b: seq<Event>)
    requires Ideal(h) && IsChain(h, a) && IsChain(h, b)
    ensures Head(a) == Head(b) <==> SameEvents(a, b)
  {
    if Head(a) == Head(b) {
      SameHeadSameLog(h, a, b);
      forall i | 0 <= i < |a| ensures a[i].hash != GENESIS {
        assert LinkOk(h, a, i);
      }
      forall i | 0 <= i < |b| ensures b[i].hash != GENESIS {
        assert LinkOk(h, b, i);
      }
      forall i: nat, j: nat ensures !CollideAt(a, b, i, j) {
        if i < |a| && j < |b| {
          assert LinkOk(h, a, i) && LinkOk(h, b, j);
        }
      }
    }
  }
}
