/** The loops of `run_lifecycle`: sort the candidates, number them within each artifact and kind,
    decide, and count. Proved against the set-based definitions of module Lifecycle. */
module LifecycleRun {
  import opened Common
  import opened Ordering
  import opened Lifecycle

  datatype Decision = Decision(candidate: Candidate, rank: nat, reason: Reason)

  datatype Stats = Stats(scanned: nat, protected: nat, retained: nat, candidates: nat, retired: nat,
                         bytesCandidates: nat, bytesRetired: nat)

  function TotalBytes(decisions: seq<Decision>): nat {
    if decisions == [] then 0
    else
      var last := decisions[|decisions| - 1];
      TotalBytes(decisions[..|decisions| - 1]) + if last.reason == PolicyRetire then last.candidate.size else 0
  }

  function CountWhere(decisions: seq<Decision>, wanted: set<Reason>): nat {
    if decisions == [] then 0
    else CountWhere(decisions[..|decisions| - 1], wanted) + if decisions[|decisions| - 1].reason in wanted then 1 else 0
  }

  const KINDS := [Generic, ModelCheckpoint, DatasetSnapshot, EmbeddingIndex, EvaluationOutput]

  /** The range checks of `validate_lifecycle_policy`, kind by kind. */
  method CheckPolicy(policy: Policy) returns (ok: bool)
    ensures ok <==> ValidPolicy(policy)
  {
    assert KINDS[0] == Generic && KINDS[1] == ModelCheckpoint && KINDS[2] == DatasetSnapshot && KINDS[3] == EmbeddingIndex;
    assert KINDS[4] == EvaluationOutput;
    for index := 0 to |KINDS|
      invariant forall i | 0 <= i < index :: ValidRule(policy.RuleFor(KINDS[i]))
    {
      var rule := policy.RuleFor(KINDS[index]);
      if rule.keepLastN > MAX_KEEP_LAST_N {
        return false;
      }
      if rule.maxAgeSeconds.Some? && rule.maxAgeSeconds.value > MAX_AGE_SECONDS {
        return false;
      }
    }
    return true;
  }

  const PROTECTED := {Pinned, Tagged, ManifestReferenced}
  const RETIRED := {PolicyRetire}

  ghost predicate RanksMatch(sorted: seq<Candidate>, ranks: seq<nat>) {
    |ranks| <= |sorted| && forall i | 0 <= i < |ranks| :: ranks[i] == Rank(Elements(sorted), sorted[i])
  }

  lemma PartitionsAreContiguous(u: Candidate, v: Candidate, w: Candidate)
    requires Before(u, v) && Before(v, w) && SamePartition(u, w)
    ensures SamePartition(v, w)
  {
    KindNamesDiffer(u.kind, v.kind);
    if u.artifactId != v.artifactId {
      LexTransitive(u.artifactId, v.artifactId, w.artifactId);
      LexTotal(u.artifactId, u.artifactId);
    } else if u.kind != v.kind {
      LexTransitive(KindName(u.kind), KindName(v.kind), KindName(w.kind));
      LexTotal(KindName(u.kind), KindName(u.kind));
    }
  }

  /** `start` is the first position of the partition that position `i` belongs to. */
  ghost predicate PartitionStart(sorted: seq<Candidate>, start: nat, i: nat) {
    && start <= i < |sorted|
    && (forall j | start <= j <= i :: SamePartition(sorted[j], sorted[i]))
    && (forall j | 0 <= j < start :: !SamePartition(sorted[j], sorted[i]))
  }

  lemma NextPartitionStart(sorted: seq<Candidate>, start: nat, i: nat)
    requires Ascending(Before, sorted) && PartitionStart(sorted, start, i) && i + 1 < |sorted|
    ensures PartitionStart(sorted, if SamePartition(sorted[i], sorted[i + 1]) then start else i + 1, i + 1)
  {
    if !SamePartition(sorted[i], sorted[i + 1]) {
      forall j | 0 <= j <= i
        ensures !SamePartition(sorted[j], sorted[i + 1])
      {
        if j < i && SamePartition(sorted[j], sorted[i + 1]) {
          PartitionsAreContiguous(sorted[j], sorted[i], sorted[i + 1]);
        }
      }
    }
  }

  /** In sorted order a version's rank is its distance from the start of its partition. */
  lemma RankInSorted(sorted: seq<Candidate>, start: nat, i: nat)
    requires Ascending(Before, sorted) && PartitionStart(sorted, start, i)
    ensures Rank(Elements(sorted), sorted[i]) == i - start + 1
  {
    var ahead := sorted[start..i];
    forall u
      ensures u in Elements(ahead) <==> u in Ahead(Elements(sorted), sorted[i])
    {
      if u in Ahead(Elements(sorted), sorted[i]) {
        var k :| 0 <= k < |sorted| && sorted[k] == u;
        BeforeIrreflexive(u);
        if k > i {
          BeforeTransitive(u, sorted[i], u);
        }
        assert ahead[k - start] == u;
      }
    }
    assert Elements(ahead) == Ahead(Elements(sorted), sorted[i]);
    BeforeStrictOrder();
    EnumerationSize(Before, ahead, Elements(ahead));
  }

  method AssignRanks(sorted: seq<Candidate>) returns (ranks: seq<nat>)
    requires Ascending(Before, sorted)
    ensures |ranks| == |sorted| && RanksMatch(sorted, ranks)
  {
    ranks := [];
    var partitionArtifact, partitionKind, rank := "", "", 0;
    for index := 0 to |sorted|
      invariant |ranks| == index && RanksMatch(sorted, ranks)
      invariant rank <= index
      invariant index == 0 ==> partitionKind == ""
      invariant index > 0 ==> partitionArtifact == sorted[index - 1].artifactId && partitionKind == KindName(sorted[index - 1].kind)
      invariant index > 0 ==> PartitionStart(sorted, index - rank, index - 1)
    {
      var candidate := sorted[index];
      if index > 0 {
        NextPartitionStart(sorted, index - rank, index - 1);
        KindNamesDiffer(candidate.kind, sorted[index - 1].kind);
      }
      if candidate.artifactId != partitionArtifact || KindName(candidate.kind) != partitionKind {
        partitionArtifact, partitionKind, rank := candidate.artifactId, KindName(candidate.kind), 0;
      }
      rank := rank + 1;
      RankInSorted(sorted, index + 1 - rank, index);
      ranks := ranks + [rank];
    }
  }

  /** Sorts the rows as they came from the database. */
  method SortCandidates(rows: seq<Candidate>) returns (sorted: seq<Candidate>)
    requires DistinctVersions(Elements(rows))
    requires forall i, j | 0 <= i < j < |rows| :: rows[i] != rows[j]
    ensures Enumerates(Before, sorted, Elements(rows)) && |sorted| == |rows|
  {
    sorted := [];
    for index := 0 to |rows|
      invariant sorted == Sorted(Before, rows[..index])
    {
      assert rows[..index + 1][..index] == rows[..index];
      sorted := Insert(Before, sorted, rows[index]);
    }
    assert rows[..|rows|] == rows;
    BeforeStrictOrder();
    BeforeTotal(Elements(rows));
    SortedEnumerates(Before, rows);
  }

  ghost predicate DecisionsMatch(policy: Policy, now: real, s: set<Candidate>, sorted: seq<Candidate>, decisions: seq<Decision>) {
    && |decisions| <= |sorted|
    && forall i | 0 <= i < |decisions| ::
         && decisions[i].candidate == sorted[i]
         && decisions[i].rank == Rank(s, sorted[i])
         && decisions[i].reason == Decide(policy, now, sorted[i], Rank(s, sorted[i]))
  }

  /** One evaluation of a policy over the candidate rows. */
  method Evaluate(policy: Policy, now: real, apply: bool, rows: seq<Candidate>)
    returns (decisions: seq<Decision>, stats: Stats, retirements: seq<VersionId>)
    requires DistinctVersions(Elements(rows))
    requires forall i, j | 0 <= i < j < |rows| :: rows[i] != rows[j]
    ensures |decisions| == |rows|
    ensures (set d | d in decisions :: d.candidate) == Elements(rows)
    ensures forall d | d in decisions ::
              && d.rank == Rank(Elements(rows), d.candidate)
              && d.reason == Decide(policy, now, d.candidate, d.rank)
    ensures Elements(retirements) ==
            if apply then (set v | v in RetireSet(policy, now, Elements(rows)) :: v.versionId) else {}
    ensures stats.scanned == |rows| == stats.protected + stats.retained + stats.candidates
    ensures stats.protected == CountWhere(decisions, PROTECTED)
    ensures stats.candidates == CountWhere(decisions, RETIRED) && stats.bytesCandidates == TotalBytes(decisions)
    ensures if apply then stats.retired == stats.candidates && stats.bytesRetired == stats.bytesCandidates
            else stats.retired == stats.bytesRetired == 0
  {
    var sorted := SortCandidates(rows);
    var ranks := AssignRanks(sorted);
    var s := Elements(rows);
    decisions := [];
    stats := Stats(|sorted|, 0, 0, 0, 0, 0, 0);
    for index := 0 to |sorted|
      invariant |decisions| == index && DecisionsMatch(policy, now, s, sorted, decisions)
      invariant stats.scanned == |sorted| && stats.retired == stats.bytesRetired == 0
      invariant stats.protected + stats.retained + stats.candidates == index
      invariant stats.protected == CountWhere(decisions, PROTECTED)
      invariant stats.candidates == CountWhere(decisions, RETIRED) && stats.bytesCandidates == TotalBytes(decisions)
    {
      var candidate := sorted[index];
      var reason := Decide(policy, now, candidate, ranks[index]);
      assert Elements(sorted) == s;
      match reason {
        case Pinned | Tagged | ManifestReferenced =>
          stats := stats.(protected := stats.protected + 1);
        case KeepLastN | AgeNotReached =>
          stats := stats.(retained := stats.retained + 1);
        case PolicyRetire =>
          stats := stats.(candidates := stats.candidates + 1, bytesCandidates := stats.bytesCandidates + candidate.size);
      }
      assert (decisions + [Decision(candidate, ranks[index], reason)])[..index] == decisions;
      decisions := decisions + [Decision(candidate, ranks[index], reason)];
    }
    retirements := [];
    if apply {
      retirements := CollectRetirements(decisions);
      stats := stats.(retired := stats.candidates, bytesRetired := stats.bytesCandidates);
    }
    RetirementsMatch(policy, now, s, sorted, decisions);
  }

  function RetiredIds(decisions: seq<Decision>): seq<VersionId> {
    if decisions == [] then []
    else
      var last := decisions[|decisions| - 1];
      RetiredIds(decisions[..|decisions| - 1]) + if last.reason == PolicyRetire then [last.candidate.versionId] else []
  }

  method CollectRetirements(decisions: seq<Decision>) returns (retirements: seq<VersionId>)
    ensures retirements == RetiredIds(decisions)
  {
    retirements := [];
    for index := 0 to |decisions|
      invariant retirements == RetiredIds(decisions[..index])
    {
      assert decisions[..index + 1][..index] == decisions[..index];
      if decisions[index].reason == PolicyRetire {
        retirements := retirements + [decisions[index].candidate.versionId];
      }
    }
    assert decisions[..|decisions|] == decisions;
  }

  lemma {:induction false} RetiredIdsAre(decisions: seq<Decision>, id: VersionId)
    ensures id in RetiredIds(decisions) <==> exists d :: d in decisions && d.reason == PolicyRetire && d.candidate.versionId == id
  {
    if decisions != [] {
      var front, last := decisions[..|decisions| - 1], decisions[|decisions| - 1];
      RetiredIdsAre(front, id);
      assert decisions == front + [last];
      assert last in decisions;
    }
  }

  lemma RetirementsMatch(policy: Policy, now: real, s: set<Candidate>, sorted: seq<Candidate>, decisions: seq<Decision>)
    requires Elements(sorted) == s
    requires |decisions| == |sorted| && DecisionsMatch(policy, now, s, sorted, decisions)
    ensures (set d | d in decisions :: d.candidate) == s
    ensures Elements(RetiredIds(decisions)) == (set v | v in RetireSet(policy, now, s) :: v.versionId)
  {
    forall v | v in s
      ensures exists d :: d in decisions && d.candidate == v && d.reason == Decide(policy, now, v, Rank(s, v))
    {
      DecisionOf(policy, now, s, sorted, decisions, v);
    }
    forall d | d in decisions
      ensures d.candidate in s
    {
      assert d.candidate in Elements(sorted);
    }
    forall id
      ensures id in RetiredIds(decisions) <==> id in set v | v in RetireSet(policy, now, s) :: v.versionId
    {
      RetiredIdsAre(decisions, id);
    }
  }

  lemma DecisionOf(policy: Policy, now: real, s: set<Candidate>, sorted: seq<Candidate>, decisions: seq<Decision>, v: Candidate)
    requires Elements(sorted) == s && v in s
    requires |decisions| == |sorted| && DecisionsMatch(policy, now, s, sorted, decisions)
    ensures exists d :: d in decisions && d.candidate == v && d.reason == Decide(policy, now, v, Rank(s, v))
  {
    var i :| 0 <= i < |sorted| && sorted[i] == v;
    assert decisions[i] in decisions;
  }
}
