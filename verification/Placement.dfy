/** Rendezvous placement of chunk replicas (src/metadata/placement.cpp). The digest of the
    pair (chunk, node) is a parameter: nothing here relies on what SHA-256 computes. */
module Placement {
  import opened Common
  import opened Ordering
  import opened Arithmetic
  import Encoding

  type Digest = d: Bytes | |d| == 32 witness seq(32, _ => 0)
  type DigestFunction = (ChunkId, NodeId) -> Digest

  const MAX_NODES := 64
  const MAX_REPLICATION := 8

  datatype RankedNode = RankedNode(digest: Digest, nodeId: NodeId)

  predicate DigestGreater(a: Bytes, b: Bytes)
    requires |a| == |b|
  {
    a != [] && (a[0] > b[0] || (a[0] == b[0] && DigestGreater(a[1..], b[1..])))
  }

  predicate RanksBefore(left: RankedNode, right: RankedNode) {
    if left.digest != right.digest then DigestGreater(left.digest, right.digest)
    else LexLess(left.nodeId, right.nodeId)
  }

  function Ranked(digest: DigestFunction, chunkId: ChunkId, nodeId: NodeId): RankedNode {
    RankedNode(digest(chunkId, nodeId), nodeId)
  }

  /** The order in which nodes are preferred for a chunk. */
  function Preference(digest: DigestFunction, chunkId: ChunkId): (NodeId, NodeId) -> bool {
    (a, b) => RanksBefore(Ranked(digest, chunkId, a), Ranked(digest, chunkId, b))
  }

  function Ranking(digest: DigestFunction, chunkId: ChunkId, nodes: seq<NodeId>): (ranking: seq<NodeId>)
    ensures |ranking| == |nodes|
  {
    Sorted(Preference(digest, chunkId), nodes)
  }

  /** The `count` most preferred nodes. */
  function Select(digest: DigestFunction, chunkId: ChunkId, nodes: seq<NodeId>, count: nat): seq<NodeId> {
    var ranking := Ranking(digest, chunkId, nodes);
    if count <= |ranking| then ranking[..count] else ranking
  }

  predicate NodeIdCharacter(c: char) {
    'A' <= c <= 'Z' || 'a' <= c <= 'z' || '0' <= c <= '9' || c == '-' || c == '_' || c == '.'
  }

  predicate IsNodeId(id: string) {
    1 <= |id| <= 128 && forall i | 0 <= i < |id| :: NodeIdCharacter(id[i])
  }

  predicate SortedNodeIds(nodes: seq<NodeId>) {
    forall i | 0 < i < |nodes| :: LexLess(nodes[i - 1], nodes[i])
  }

  predicate ValidReplication(nodes: seq<NodeId>, replicationFactor: int) {
    && 1 <= |nodes| <= MAX_NODES
    && 1 <= replicationFactor <= MAX_REPLICATION
    && replicationFactor <= |nodes|
    && (forall i | 0 <= i < |nodes| :: IsNodeId(nodes[i]))
    && SortedNodeIds(nodes)
  }

  lemma {:induction false} DigestOrder(a: Bytes, b: Bytes)
    requires |a| == |b|
    ensures !DigestGreater(a, a)
    ensures a == b || DigestGreater(a, b) || DigestGreater(b, a)
  {
    if a != [] {
      DigestOrder(a[1..], b[1..]);
      if a[0] == b[0] && a[1..] == b[1..] {
        assert a == [a[0]] + a[1..] == b;
      }
    }
  }

  lemma {:induction false} DigestTransitive(a: Bytes, b: Bytes, c: Bytes)
    requires |a| == |b| == |c|
    requires DigestGreater(a, b) && DigestGreater(b, c)
    ensures DigestGreater(a, c)
  {
    if a[0] == b[0] && b[0] == c[0] {
      DigestTransitive(a[1..], b[1..], c[1..]);
    }
  }

  lemma RanksBeforeStrictTotal()
    ensures StrictTotal(RanksBefore)
  {
    forall x: RankedNode, y: RankedNode
      ensures !RanksBefore(x, x) && (x == y || RanksBefore(x, y) || RanksBefore(y, x))
    {
      DigestOrder(x.digest, y.digest);
      LexTotal(x.nodeId, y.nodeId);
    }
    forall x: RankedNode, y: RankedNode, z: RankedNode | RanksBefore(x, y) && RanksBefore(y, z)
      ensures RanksBefore(x, z)
    {
      if x.digest == y.digest == z.digest {
        LexTransitive(x.nodeId, y.nodeId, z.nodeId);
      } else if x.digest != y.digest && y.digest != z.digest {
        DigestTransitive(x.digest, y.digest, z.digest);
        DigestOrder(x.digest, x.digest);
      }
    }
  }

  lemma PreferenceStrictTotal(digest: DigestFunction, chunkId: ChunkId)
    ensures StrictTotal(Preference(digest, chunkId))
  {
    RanksBeforeStrictTotal();
    var lt := Preference(digest, chunkId);
    forall x: NodeId, y: NodeId, z: NodeId | lt(x, y) && lt(y, z)
      ensures lt(x, z)
    {
      var a, b, c := Ranked(digest, chunkId, x), Ranked(digest, chunkId, y), Ranked(digest, chunkId, z);
      assert RanksBefore(a, b) && RanksBefore(b, c);
    }
    forall x: NodeId, y: NodeId
      ensures !lt(x, x) && (x == y || lt(x, y) || lt(y, x))
    {
      var a, b := Ranked(digest, chunkId, x), Ranked(digest, chunkId, y);
      assert !RanksBefore(a, a) && (a == b || RanksBefore(a, b) || RanksBefore(b, a));
    }
  }

  ghost predicate DistinctNodes(nodes: seq<NodeId>) {
    forall i, j | 0 <= i < j < |nodes| :: nodes[i] != nodes[j]
  }

  lemma RankingEnumerates(digest: DigestFunction, chunkId: ChunkId, nodes: seq<NodeId>)
    requires DistinctNodes(nodes)
    ensures StrictTotal(Preference(digest, chunkId))
    ensures Enumerates(Preference(digest, chunkId), Ranking(digest, chunkId, nodes), Elements(nodes))
    ensures |Ranking(digest, chunkId, nodes)| == |nodes|
  {
    var lt := Preference(digest, chunkId);
    PreferenceStrictTotal(digest, chunkId);
    SortedEnumerates(lt, nodes);
    EnumerationSize(lt, Sorted(lt, nodes), Elements(nodes));
    DistinctSize(nodes);
  }

  lemma {:induction false} DistinctSize(nodes: seq<NodeId>)
    requires DistinctNodes(nodes)
    ensures |Elements(nodes)| == |nodes|
  {
    if nodes != [] {
      var last := |nodes| - 1;
      DistinctSize(nodes[..last]);
      assert Elements(nodes) == Elements(nodes[..last]) + {nodes[last]};
    }
  }

  /** A selection consists of distinct nodes of the set, in preference order, each preferred to
      every node left out; and it extends every smaller selection. */
  lemma SelectionIsTop(digest: DigestFunction, chunkId: ChunkId, nodes: seq<NodeId>, count: nat)
    requires DistinctNodes(nodes) && count <= |nodes|
    ensures var selected := Select(digest, chunkId, nodes, count);
            && |selected| == count
            && DistinctNodes(selected)
            && Elements(selected) <= Elements(nodes)
            && (forall x, y | x in selected && y in nodes && y !in selected ::
                  RanksBefore(Ranked(digest, chunkId, x), Ranked(digest, chunkId, y)))
    ensures forall fewer: nat | fewer <= count ::
              Select(digest, chunkId, nodes, fewer) == Select(digest, chunkId, nodes, count)[..fewer]
  {
    RankingEnumerates(digest, chunkId, nodes);
    var ranking := Ranking(digest, chunkId, nodes);
    var selected := Select(digest, chunkId, nodes, count);
    var lt := Preference(digest, chunkId);
    forall x, y | x in selected && y in nodes && y !in selected
      ensures RanksBefore(Ranked(digest, chunkId, x), Ranked(digest, chunkId, y))
    {
      assert y in Elements(ranking);
      var i :| 0 <= i < count && ranking[i] == x;
      var j :| 0 <= j < |ranking| && ranking[j] == y;
      assert forall k | 0 <= k < count :: ranking[k] == selected[k] && selected[k] in selected;
      assert lt(x, y);
    }
    forall x | x in selected
      ensures x in nodes
    {
      assert x in Elements(ranking);
    }
  }

  // ---------------------------------------------------------------------------------------------
  // The selection in terms of digests as numbers
  // ---------------------------------------------------------------------------------------------

  /** Comparing from the first byte on is comparing the 256-bit numbers that the digests write. */
  lemma {:induction false} GreaterMeansGreaterNumber(a: Bytes, b: Bytes)
    requires |a| == |b|
    ensures DigestGreater(a, b) <==> Encoding.Number(a) > Encoding.Number(b)
  {
    if a != [] {
      var x, y := a[1..], b[1..];
      GreaterMeansGreaterNumber(x, y);
      Encoding.NumberFromFront(a[0], x);
      Encoding.NumberFromFront(b[0], y);
      assert a == [a[0]] + x && b == [b[0]] + y;
      HigherByteWins(a[0], b[0], Encoding.Number(x), Encoding.Number(y), Pow2(8 * |x|));
    }
  }

  lemma HigherByteWins(high: nat, low: nat, x: nat, y: nat, power: nat)
    requires x < power && y < power
    ensures high > low ==> high * power + x > low * power + y
    ensures high < low ==> high * power + x < low * power + y
  {
    MulDistributes(power, high, low);
    if high > low {
      MulAtLeast(power, high - low);
    } else if high < low {
      MulDistributes(power, low, high);
      MulAtLeast(power, low - high);
    }
  }

  /** The node whose digest with the chunk is the greater number; the node ID decides between equal digests. */
  ghost predicate Wins(digest: DigestFunction, chunkId: ChunkId, x: NodeId, y: NodeId) {
    var a, b := Encoding.Number(digest(chunkId, x)), Encoding.Number(digest(chunkId, y));
    a > b || (a == b && LexLess(x, y))
  }

  lemma PreferenceMeansWins(digest: DigestFunction, chunkId: ChunkId, x: NodeId, y: NodeId)
    ensures Preference(digest, chunkId)(x, y) <==> Wins(digest, chunkId, x, y)
  {
    var a, b := digest(chunkId, x), digest(chunkId, y);
    GreaterMeansGreaterNumber(a, b);
    GreaterMeansGreaterNumber(b, a);
    DigestOrder(a, b);
  }

  /** The nodes in winning order, each winning against every node left out. */
  ghost predicate IsWinners(digest: DigestFunction, chunkId: ChunkId, nodes: seq<NodeId>, count: nat, winners: seq<NodeId>) {
    && |winners| == count
    && (forall i | 0 <= i < count :: winners[i] in nodes)
    && (forall i, j | 0 <= i < j < count :: Wins(digest, chunkId, winners[i], winners[j]))
    && (forall i, y | 0 <= i < count && y in nodes && y !in winners :: Wins(digest, chunkId, winners[i], y))
  }

  /** The selection is the one sequence of winners. */
  lemma SelectionIsWinners(digest: DigestFunction, chunkId: ChunkId, nodes: seq<NodeId>, count: nat, winners: seq<NodeId>)
    requires DistinctNodes(nodes) && count <= |nodes|
    ensures winners == Select(digest, chunkId, nodes, count) <==> IsWinners(digest, chunkId, nodes, count, winners)
  {
    hide DigestGreater, RanksBefore, Wins, Ranking, Preference;
    var lt := Preference(digest, chunkId);
    forall x: NodeId, y: NodeId
      ensures lt(x, y) <==> Wins(digest, chunkId, x, y)
    {
      PreferenceMeansWins(digest, chunkId, x, y);
    }
    var selected := Select(digest, chunkId, nodes, count);
    SelectionWins(digest, chunkId, nodes, count);
    if IsWinners(digest, chunkId, nodes, count, winners) {
      PreferenceStrictTotal(digest, chunkId);
      NoWinnerIsLost(lt, nodes, winners, selected);
      NoWinnerIsLost(lt, nodes, selected, winners);
      EnumerationUnique(lt, winners, selected);
    }
  }

  lemma SelectionWins(digest: DigestFunction, chunkId: ChunkId, nodes: seq<NodeId>, count: nat)
    requires DistinctNodes(nodes) && count <= |nodes|
    ensures IsWinners(digest, chunkId, nodes, count, Select(digest, chunkId, nodes, count))
  {
    hide DigestGreater, RanksBefore, Wins;
    RankingEnumerates(digest, chunkId, nodes);
    SelectionIsTop(digest, chunkId, nodes, count);
    var selected := Select(digest, chunkId, nodes, count);
    forall x: NodeId, y: NodeId
      ensures RanksBefore(Ranked(digest, chunkId, x), Ranked(digest, chunkId, y)) <==> Wins(digest, chunkId, x, y)
    {
      PreferenceMeansWins(digest, chunkId, x, y);
    }
    assert forall i | 0 <= i < count :: selected[i] in selected && selected[i] in Elements(selected);
  }

  /** Of two sequences of the same length, each of whose elements come before all nodes left out, neither has
      an element that the other has not. */
  lemma NoWinnerIsLost(lt: (NodeId, NodeId) -> bool, nodes: seq<NodeId>, s: seq<NodeId>, t: seq<NodeId>)
    requires StrictTotal(lt) && Ascending(lt, s) && Ascending(lt, t) && |s| == |t|
    requires Elements(s) <= Elements(nodes) && Elements(t) <= Elements(nodes)
    requires forall x, y | x in s && y in nodes && y !in s :: lt(x, y)
    requires forall x, y | x in t && y in nodes && y !in t :: lt(x, y)
    ensures Elements(s) <= Elements(t)
  {
    EnumerationSize(lt, s, Elements(s));
    EnumerationSize(lt, t, Elements(t));
    if x :| x in Elements(s) && x !in Elements(t) {
      forall y | y in Elements(t)
        ensures y in Elements(s)
      {
        assert y in Elements(nodes) && x in Elements(nodes);
        assert y in s || lt(x, y);
        assert x in t || lt(y, x);
      }
      SubsetSize(Elements(t), Elements(s) - {x});
    }
  }

  /** Without node `x`, the ranking is the old one with `x` taken out. */
  lemma RankingWithout(digest: DigestFunction, chunkId: ChunkId, nodes: seq<NodeId>, x: NodeId)
    requires DistinctNodes(nodes)
    ensures Ranking(digest, chunkId, Without(nodes, x)) == Without(Ranking(digest, chunkId, nodes), x)
    ensures DistinctNodes(Without(nodes, x))
  {
    var lt := Preference(digest, chunkId);
    RankingEnumerates(digest, chunkId, nodes);
    WithoutDistinct(nodes, x);
    RankingEnumerates(digest, chunkId, Without(nodes, x));
    WithoutEnumerates(lt, Ranking(digest, chunkId, nodes), x);
    EnumerationUnique(lt, Ranking(digest, chunkId, Without(nodes, x)), Without(Ranking(digest, chunkId, nodes), x));
  }

  lemma {:induction false} WithoutDistinct(nodes: seq<NodeId>, x: NodeId)
    requires DistinctNodes(nodes)
    ensures DistinctNodes(Without(nodes, x))
    ensures Elements(Without(nodes, x)) == Elements(nodes) - {x}
  {
    if nodes != [] {
      WithoutDistinct(nodes[1..], x);
      var rest := Without(nodes[1..], x);
      assert Elements(nodes) == {nodes[0]} + Elements(nodes[1..]);
      assert nodes[0] !in Elements(nodes[1..]);
      assert nodes[0] !in Elements(rest);
      assert Elements([nodes[0]] + rest) == {nodes[0]} + Elements(rest);
    }
  }

  /** Minimal disruption: losing a node that was not selected changes nothing. */
  lemma RemovingUnselected(digest: DigestFunction, chunkId: ChunkId, nodes: seq<NodeId>, count: nat, x: NodeId)
    requires DistinctNodes(nodes) && count <= |nodes|
    requires x in nodes && x !in Select(digest, chunkId, nodes, count)
    ensures Select(digest, chunkId, Without(nodes, x), count) == Select(digest, chunkId, nodes, count)
  {
    var ranking := Ranking(digest, chunkId, nodes);
    RankingEnumerates(digest, chunkId, nodes);
    assert x in Elements(ranking);
    var i :| 0 <= i < |ranking| && ranking[i] == x;
    var selected := Select(digest, chunkId, nodes, count);
    assert forall k | 0 <= k < count :: ranking[k] == selected[k] && selected[k] in selected;
    RankingWithoutAt(digest, chunkId, nodes, i);
  }

  /** Minimal disruption: losing a selected node keeps the others in order and appends exactly one
      node, the one ranked next. */
  lemma RemovingSelected(digest: DigestFunction, chunkId: ChunkId, nodes: seq<NodeId>, count: nat, i: nat)
    requires DistinctNodes(nodes) && i < count < |nodes|
    ensures var selected := Select(digest, chunkId, nodes, count);
            var next := Select(digest, chunkId, nodes, count + 1)[count];
            && next !in selected
            && Select(digest, chunkId, Without(nodes, selected[i]), count) == selected[..i] + selected[i + 1..] + [next]
  {
    var ranking := Ranking(digest, chunkId, nodes);
    RankingWithoutAt(digest, chunkId, nodes, i);
    TakeWithout(ranking, i, count);
  }

  lemma TakeWithout(s: seq<NodeId>, i: nat, count: nat)
    requires i < count < |s|
    ensures (s[..i] + s[i + 1..])[..count] == s[..count][..i] + s[..count][i + 1..] + [s[..count + 1][count]]
  {
  }

  lemma RankingWithoutAt(digest: DigestFunction, chunkId: ChunkId, nodes: seq<NodeId>, i: nat)
    requires DistinctNodes(nodes) && i < |nodes|
    ensures var ranking := Ranking(digest, chunkId, nodes);
            && DistinctNodes(ranking)
            && Ranking(digest, chunkId, Without(nodes, ranking[i])) == ranking[..i] + ranking[i + 1..]
  {
    var ranking := Ranking(digest, chunkId, nodes);
    RankingEnumerates(digest, chunkId, nodes);
    RankingWithout(digest, chunkId, nodes, ranking[i]);
    WithoutPresent(Preference(digest, chunkId), ranking, i);
  }

  lemma {:induction false} SortedNodeIdsClimb(nodes: seq<NodeId>, i: nat, j: nat)
    requires SortedNodeIds(nodes) && i < j < |nodes|
    ensures LexLess(nodes[i], nodes[j])
  {
    assert LexLess(nodes[j - 1], nodes[j]);
    if i < j - 1 {
      SortedNodeIdsClimb(nodes, i, j - 1);
      LexTransitive(nodes[i], nodes[j - 1], nodes[j]);
    }
  }

  lemma SortedNodeIdsDistinct(nodes: seq<NodeId>)
    requires SortedNodeIds(nodes)
    ensures Ascending(LexLess, nodes) && DistinctNodes(nodes)
  {
    forall i, j | 0 <= i < j < |nodes|
      ensures LexLess(nodes[i], nodes[j]) && nodes[i] != nodes[j]
    {
      SortedNodeIdsClimb(nodes, i, j);
      LexTotal(nodes[i], nodes[j]);
    }
  }

  /** The selection as it is computed: validate, rank every node by digest, sort, take the first. */
  method SelectReplicaNodes(digest: DigestFunction, chunkId: ChunkId, nodes: seq<NodeId>, replicationFactor: int)
    returns (result: Result<seq<NodeId>, string>)
    ensures result.Ok? <==> IsContentId(chunkId) && ValidReplication(nodes, replicationFactor)
    ensures result.Ok? ==> result.value == Select(digest, chunkId, nodes, replicationFactor)
  {
    if !IsContentId(chunkId) {
      return Err("placement chunk_id must be 64 lowercase hex characters");
    }
    if nodes == [] || |nodes| > MAX_NODES {
      return Err("placement node set size must be between 1 and 64");
    }
    if replicationFactor < 1 || replicationFactor > MAX_REPLICATION || replicationFactor > |nodes| {
      return Err("replication_factor must be between 1 and 8 and <= placement node count");
    }
    for index := 0 to |nodes|
      invariant forall i | 0 <= i < index :: IsNodeId(nodes[i])
      invariant forall i | 0 < i < index :: LexLess(nodes[i - 1], nodes[i])
    {
      if !IsNodeId(nodes[index]) {
        return Err("storage node ID is invalid");
      }
      if index > 0 && !LexLess(nodes[index - 1], nodes[index]) {
        return Err("placement node IDs must be sorted and unique");
      }
    }

    SortedNodeIdsDistinct(nodes);
    var selected := RankAndTake(digest, chunkId, nodes, replicationFactor);
    return Ok(selected);
  }

  method RankAndTake(digest: DigestFunction, chunkId: ChunkId, nodes: seq<NodeId>, replicationFactor: nat)
    returns (selected: seq<NodeId>)
    requires DistinctNodes(nodes) && replicationFactor <= |nodes|
    ensures selected == Select(digest, chunkId, nodes, replicationFactor)
  {
    var ranked: seq<RankedNode> := [];
    for index := 0 to |nodes|
      invariant |ranked| == index
      invariant forall i | 0 <= i < index :: ranked[i] == Ranked(digest, chunkId, nodes[i])
    {
      ranked := ranked + [Ranked(digest, chunkId, nodes[index])];
    }
    var sorted := SortRanked(ranked);
    SortedRanksAreRanking(digest, chunkId, nodes, ranked);

    selected := [];
    for index := 0 to replicationFactor
      invariant selected == Ranking(digest, chunkId, nodes)[..index]
    {
      selected := selected + [sorted[index].nodeId];
    }
  }

  method SortRanked(ranked: seq<RankedNode>) returns (sorted: seq<RankedNode>)
    ensures sorted == Sorted(RanksBefore, ranked)
  {
    sorted := [];
    for index := 0 to |ranked|
      invariant sorted == Sorted(RanksBefore, ranked[..index])
    {
      assert ranked[..index + 1][..index] == ranked[..index];
      sorted := Insert(RanksBefore, sorted, ranked[index]);
    }
    assert ranked[..|ranked|] == ranked;
  }

  lemma SortedRanksAreRanking(digest: DigestFunction, chunkId: ChunkId, nodes: seq<NodeId>, ranked: seq<RankedNode>)
    requires DistinctNodes(nodes)
    requires |ranked| == |nodes|
    requires forall i | 0 <= i < |nodes| :: ranked[i] == Ranked(digest, chunkId, nodes[i])
    ensures var sorted := Sorted(RanksBefore, ranked);
            && |sorted| == |nodes|
            && Ranking(digest, chunkId, nodes) == seq(|nodes|, (i: nat) requires i < |sorted| => sorted[i].nodeId)
  {
    var sorted := Sorted(RanksBefore, ranked);
    RanksBeforeStrictTotal();
    SortedEnumerates(RanksBefore, ranked);
    forall r | r in sorted
      ensures r == Ranked(digest, chunkId, r.nodeId) && r.nodeId in nodes
    {
      assert r in Elements(ranked);
    }
    var ids := seq(|sorted|, (i: nat) requires i < |sorted| => sorted[i].nodeId);
    var lt := Preference(digest, chunkId);
    forall i, j | 0 <= i < j < |ids|
      ensures lt(ids[i], ids[j])
    {
      assert sorted[i] in sorted && sorted[j] in sorted;
      assert RanksBefore(sorted[i], sorted[j]);
    }
    forall x
      ensures x in ids <==> x in nodes
    {
      if x in ids {
        var i :| 0 <= i < |ids| && ids[i] == x;
        assert sorted[i] in sorted;
      }
      if x in nodes {
        var i :| 0 <= i < |nodes| && nodes[i] == x;
        assert ranked[i] in Elements(sorted);
        var j :| 0 <= j < |sorted| && sorted[j] == ranked[i];
        assert ids[j] == x;
      }
    }
    RankingEnumerates(digest, chunkId, nodes);
    assert Elements(ids) == Elements(nodes);
    EnumerationUnique(lt, ids, Ranking(digest, chunkId, nodes));
  }
}
