/** The independent anchor: an append-only list of chain heads kept in another store. Checking
    against it recomputes the head of the log as of the last anchored event count. */
module Checkpoint {
  import opened Options
  import opened AuditChain

  datatype Anchor = Anchor(chainEvents: nat, headHash: Digest)

  datatype Verdict = NotConfigured | NothingAnchored | Checked(agrees: bool, prefixValid: bool)

  /** What anchoring this log at this moment writes down. */
  function AnchorOf(log: seq<Event>): Anchor {
    Anchor(|log|, Head(log))
  }

  /** The anchored claim holds of a log: its first events, as many as were counted (all of them
      if the count is zero), verify and end in the anchored hash. */
  predicate Agrees(h: Hash, log: seq<Event>, anchor: Anchor) {
    IsChain(h, Considered(log, anchor.chainEvents)) && Head(Considered(log, anchor.chainEvents)) == anchor.headHash
  }

  class CheckpointStore {
    const configured: bool
    var anchors: seq<Anchor>

    constructor (configured: bool)
      ensures anchors == [] && this.configured == configured
    {
      this.configured, anchors := configured, [];
    }

    /** Rows are only ever appended. Without a store this does nothing, and with one that is down
        it says so and raises nothing. */
    method AnchorCheckpoint(headHash: Digest, chainEvents: nat, storeUp: bool) returns (anchored: bool)
      modifies this
      ensures anchored <==> configured && storeUp
      ensures anchors == old(anchors) + if anchored then [Anchor(chainEvents, headHash)] else []
    {
      anchored := configured && storeUp;
      if anchored {
        anchors := anchors + [Anchor(chainEvents, headHash)];
      }
    }

    /** The row that was appended last. */
    method LatestCheckpoint() returns (latest: Option<Anchor>)
      ensures latest.Some? <==> configured && anchors != []
      ensures latest.Some? ==> anchors == anchors[..|anchors| - 1] + [latest.value]
    {
      latest := if !configured || anchors == [] then None else Some(anchors[|anchors| - 1]);
    }

    /** The verdict is about the last anchor only. */
    method VerifyAgainstCheckpoints(h: Hash, log: seq<Event>) returns (v: Verdict)
      ensures v == if !configured then NotConfigured
                   else if anchors == [] then NothingAnchored
                   else var last := anchors[|anchors| - 1];
                        Checked(Agrees(h, log, last), IsChain(h, Considered(log, last.chainEvents)))
    {
      if !configured {
        return NotConfigured;
      }
      var latest := LatestCheckpoint();
      if latest.None? {
        return NothingAnchored;
      }
      var prefix := VerifyChain(h, log, latest.value.chainEvents);
      v := Checked(prefix.Valid? && prefix.head == latest.value.headHash, prefix.Valid?);
    }

    /** One call of the verification route: the log against itself, then against the previous
        anchor, and only then a fresh anchor. */
    method AuditVerify(h: Hash, log: seq<Event>, storeUp: bool) returns (chain: Report, against: Verdict, anchored: bool)
      modifies this
      ensures chain.Valid? <==> IsChain(h, log)
      ensures against.Checked? <==> configured && old(anchors) != []
      ensures against.Checked? ==> (against.agrees <==> Agrees(h, log, old(anchors)[|old(anchors)| - 1]))
      ensures anchored <==> configured && storeUp
      ensures anchors == old(anchors) + if anchored then [AnchorOf(log)] else []
    {
      chain := VerifyChain(h, log, 0);
      against := VerifyAgainstCheckpoints(h, log);
      anchored := AnchorCheckpoint(Head(log), |log|, storeUp);
    }
  }

  /** The first events of the log now are the events that were there at anchoring. */
  predicate StillThere(anchored: seq<Event>, log: seq<Event>) {
    |anchored| <= |log| && SameEvents(log[..|anchored|], anchored)
  }

  lemma SameEventsSameChain(h: Hash, a: seq<Event>, b: seq<Event>)
    requires SameEvents(a, b) && IsChain(h, a)
    ensures IsChain(h, b) && Head(a) == Head(b)
  {
    forall i | 0 <= i < |b| ensures LinkOk(h, b, i) {
      assert LinkOk(h, a, i);
    }
  }

  /** With a real hash: a log that still agrees with an anchor of at least one event either
      begins with exactly the anchored events or displays a broken hash. */
  lemma AgreementPinsPrefix(h: Hash, anchored: seq<Event>, log: seq<Event>)
    requires |anchored| > 0 && IsChain(h, anchored)
    requires Agrees(h, log, AnchorOf(anchored))
    ensures StillThere(anchored, log) || BreaksHash(Considered(log, |anchored|), anchored)
  {
    var prefix := Considered(log, |anchored|);
    SameHeadSameLog(h, prefix, anchored);
    if SameEvents(prefix, anchored) {
      assert prefix == log[..|anchored|];
    }
  }

  /** With an ideal hash, exactly: the check passes if and only if the anchored events are all
      still there, unaltered and in place. Appending never raises a false alarm; altering,
      reordering or cutting off anything that was anchored always shows, even when the whole
      chain has been recomputed so that it verifies on its own. */
  lemma AgreesIffStillThere(h: Hash, anchored: seq<Event>, log: seq<Event>)
    requires Ideal(h) && |anchored| > 0 && IsChain(h, anchored)
    ensures Agrees(h, log, AnchorOf(anchored)) <==> StillThere(anchored, log)
  {
    var prefix := Considered(log, |anchored|);
    if Agrees(h, log, AnchorOf(anchored)) {
      HeadPinsHistory(h, prefix, anchored);
      assert prefix == log[..|anchored|];
    }
    if StillThere(anchored, log) {
      assert prefix == log[..|anchored|];
      forall i | 0 <= i < |anchored| ensures LinkOk(h, prefix, i) {
        assert LinkOk(h, anchored, i);
      }
      assert IsChain(h, prefix);
      SameEventsSameChain(h, prefix, anchored);
    }
  }

  /** An empty log must not be anchored: its count reads as "no limit", so the very first event
      appended afterwards looks like tampering. An anchor never gives a false alarm on the
      appended log exactly when it counted something or nothing was appended. */
  lemma NoFalseAlarmIff(h: Hash, anchored: seq<Event>, more: seq<Event>)
    requires Ideal(h) && IsChain(h, anchored + more)
    ensures Agrees(h, anchored + more, AnchorOf(anchored)) <==> |anchored| > 0 || more == []
  {
    var log := anchored + more;
    assert log[..|anchored|] == anchored;
    PrefixIsChain(h, log, |anchored|);
    if |anchored| > 0 {
      assert Considered(log, |anchored|) == anchored;
    } else if more != [] {
      assert LinkOk(h, log, |log| - 1);
    } else {
      assert log == [];
    }
  }

  lemma StillThereIsTransitive(a: seq<Event>, b: seq<Event>, c: seq<Event>)
    requires StillThere(a, b) && StillThere(b, c)
    ensures StillThere(a, c)
  {
    assert forall i | 0 <= i < |a| :: a[i].body == b[..|a|][i].body && b[..|a|][i] == b[i];
    assert forall i | 0 <= i < |b| :: b[i].body == c[..|b|][i].body && c[..|b|][i] == c[i];
  }

  /** Each call of the route found the log valid and in agreement with the one before. */
  ghost predicate Quiet(h: Hash, logs: seq<seq<Event>>) {
    && (forall k | 0 <= k < |logs| :: IsChain(h, logs[k]))
    && (forall k | 0 < k < |logs| :: Agrees(h, logs[k], AnchorOf(logs[k - 1])))
  }

  /** A run of calls without an alarm means that in all that time the log was only ever appended
      to: what any call saw is still the beginning of what the last call sees. */
  lemma {:induction false} QuietMeansAppendOnly(h: Hash, logs: seq<seq<Event>>, k: nat)
    requires Ideal(h) && Quiet(h, logs) && k < |logs| && |logs[0]| > 0
    ensures |logs[|logs| - 1]| > 0 && StillThere(logs[k], logs[|logs| - 1])
    decreases |logs|
  {
    var n := |logs| - 1;
    if n > 0 {
      var earlier := logs[..n];
      assert earlier[n - 1] == logs[n - 1] && Agrees(h, logs[n], AnchorOf(logs[n - 1]));
      assert Quiet(h, earlier) by {
        assert forall i | 0 <= i < n :: earlier[i] == logs[i];
      }
      QuietMeansAppendOnly(h, earlier, if k < n then k else 0);
      AgreesIffStillThere(h, logs[n - 1], logs[n]);
      if k < n {
        StillThereIsTransitive(logs[k], logs[n - 1], logs[n]);
      }
    }
    if k == n {
      assert logs[n][..|logs[n]|] == logs[n];
    }
  }
}
