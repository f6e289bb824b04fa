/** Repair of an under-replicated version: start a replication run, get its plan, and for every chunk verify
    the desired replicas, fetch the bytes from some healthy source if one is missing, copy and register;
    then complete the run (src/replication/repair_engine.cpp). Other clients act between any two requests,
    and requests and answers get lost. */
module Repair {
  import opened Common
  import opened ObjectLayouts
  import opened Tables
  import opened Invariant
  import opened ControlPlane
  import opened OpenWork
  import opened RepairRuns
  import opened OtherClients
  import opened Deployments
  import Placement

  datatype RepairStats = RepairStats(chunksScanned: nat, chunksUnderReplicated: nat, replicasVerified: nat, replicasWritten: nat,
                                     bytesCopied: nat, sourceFailovers: nat)

  const NO_STATS := RepairStats(0, 0, 0, 0, 0, 0)

  datatype RepairError =
    | RequestFailed | StartRefused(error: Error) | PlanRefused(error: Error) | TargetNotInPool | SourceConnectionFailed
    | NoHealthySource | SourceSizeMismatch | RegistrationRefused(error: Error) | CompletionRefused(error: Error)

  datatype RepairResult = AlreadyCompleted(run: ReplicationRun) | Repaired(run: ReplicationRun, stats: RepairStats)

  // ---------------------------------------------------------------------------------------------
  // What one repair works on, and what it has achieved
  // ---------------------------------------------------------------------------------------------

  /** The run, the layout whose replicas it is to restore, and the digest that selects the nodes. */
  datatype Job = Job(runId: RunId, run: ReplicationRun, layout: Descriptor, digest: Placement.DigestFunction)

  /** The run is still recorded. Its layout is there as long as the run is open or its version active; its
      chunk rows are as long as the run is open. */
  ghost predicate Concerns(job: Job, w: World) {
    && w.db.hashing.digest == job.digest
    && job.runId in w.db.replicationRuns && w.db.replicationRuns[job.runId] == job.run.(open := w.db.replicationRuns[job.runId].open)
    && job.run.versionId in w.db.versions && w.db.versions[job.run.versionId].key.rootObjectId == job.layout.objectId
    && (job.run.versionId !in w.db.retired || WorkOpen(w.db, Repairing(job.runId)) ==>
          job.run.layoutId in w.db.layouts && w.db.layouts[job.run.layoutId] == job.layout)
    && (WorkOpen(w.db, Repairing(job.runId)) ==> forall i | 0 <= i < |job.layout.chunks| :: job.layout.chunks[i].chunkId in w.db.chunks)
  }

  /** The chunk is on the node, or the version has been retired. */
  ghost predicate Kept(job: Job, w: World, c: ChunkId, n: NodeId) {
    job.run.versionId !in w.db.retired ==> (n, c) in w.disk
  }

  ghost predicate Secured(job: Job, w: World, downgraded: set<Replica>, c: ChunkId, n: NodeId) {
    Kept(job, w, c, n) && StillListed(Repairing(job.runId), w, downgraded, c, n)
  }

  lemma ConcernStays(job: Job, w: World, later: World, downgraded: set<Replica>)
    requires Concerns(job, w) && Acted(w, later, downgraded)
    ensures Concerns(job, later)
  {
    assert WorkOpen(later.db, Repairing(job.runId)) ==> StillOpen(w, later, Repairing(job.runId));
    if job.run.versionId !in later.db.retired {
      LayoutStaysBetween(w, later, later, job.run.versionId, job.run.layoutId);
    }
  }

  lemma KeptStays(job: Job, w: World, later: World, downgraded: set<Replica>, c: ChunkId, n: NodeId)
    requires Concerns(job, w) && Acted(w, later, downgraded) && HasChunk(job.layout, c)
    requires Kept(job, w, c, n)
    ensures Kept(job, later, c, n)
  {
    if job.run.versionId !in later.db.retired {
      assert ReplicasPersist(w, later);
    }
  }

  ghost predicate AllSecured(job: Job, w: World, downgraded: set<Replica>, c: ChunkId, nodes: seq<NodeId>) {
    forall i | 0 <= i < |nodes| :: Secured(job, w, downgraded, c, nodes[i])
  }

  lemma OneMoreSecured(job: Job, w: World, downgraded: set<Replica>, c: ChunkId, nodes: seq<NodeId>, n: NodeId)
    requires AllSecured(job, w, downgraded, c, nodes) && Secured(job, w, downgraded, c, n)
    ensures AllSecured(job, w, downgraded, c, nodes + [n])
  {
  }

  lemma AllSecuredStay(job: Job, w: World, later: World, before: set<Replica>, downgraded: set<Replica>, c: ChunkId, nodes: seq<NodeId>)
    requires Concerns(job, w) && Acted(w, later, downgraded) && before <= downgraded && HasChunk(job.layout, c)
    requires AllSecured(job, w, before, c, nodes)
    ensures AllSecured(job, later, downgraded, c, nodes)
  {
    forall i | 0 <= i < |nodes|
      ensures Secured(job, later, downgraded, c, nodes[i])
    {
      assert Secured(job, w, before, c, nodes[i]);
      KeptStays(job, w, later, downgraded, c, nodes[i]);
      ListedStays(Repairing(job.runId), w, later, before, downgraded, c, nodes[i]);
    }
  }

  ghost predicate PlanSecured(job: Job, w: World, downgraded: set<Replica>, plan: seq<ChunkPlan>) {
    forall i | 0 <= i < |plan| :: AllSecured(job, w, downgraded, plan[i].chunkId, plan[i].desired)
  }

  lemma PlanSecuredStays(job: Job, w: World, later: World, before: set<Replica>, downgraded: set<Replica>, plan: seq<ChunkPlan>)
    requires Concerns(job, w) && Acted(w, later, downgraded) && before <= downgraded
    requires forall i | 0 <= i < |plan| :: HasChunk(job.layout, plan[i].chunkId)
    requires PlanSecured(job, w, before, plan)
    ensures PlanSecured(job, later, downgraded, plan)
  {
    forall i | 0 <= i < |plan|
      ensures AllSecured(job, later, downgraded, plan[i].chunkId, plan[i].desired)
    {
      AllSecuredStay(job, w, later, before, downgraded, plan[i].chunkId, plan[i].desired);
    }
  }

  /** The sources of a chunk are registered. */
  ghost predicate SourcesListed(job: Job, w: World, downgraded: set<Replica>, chunk: ChunkPlan) {
    AllListed(Repairing(job.runId), w, downgraded, chunk.chunkId, chunk.sources)
  }

  lemma SourcesListedStay(job: Job, w: World, later: World, before: set<Replica>, downgraded: set<Replica>, chunk: ChunkPlan)
    requires Concerns(job, w) && Acted(w, later, downgraded) && before <= downgraded
    requires SourcesListed(job, w, before, chunk)
    ensures SourcesListed(job, later, downgraded, chunk)
  {
    AllListedStay(Repairing(job.runId), w, later, before, downgraded, chunk.chunkId, chunk.sources);
  }

  ghost predicate PlanListed(job: Job, w: World, downgraded: set<Replica>, plan: seq<ChunkPlan>) {
    forall i | 0 <= i < |plan| :: SourcesListed(job, w, downgraded, plan[i])
  }

  lemma PlanListedStays(job: Job, w: World, later: World, before: set<Replica>, downgraded: set<Replica>, plan: seq<ChunkPlan>)
    requires Concerns(job, w) && Acted(w, later, downgraded) && before <= downgraded
    requires PlanListed(job, w, before, plan)
    ensures PlanListed(job, later, downgraded, plan)
  {
    forall i | 0 <= i < |plan|
      ensures SourcesListed(job, later, downgraded, plan[i])
    {
      SourcesListedStay(job, w, later, before, downgraded, plan[i]);
    }
  }

  /** A chunk of the job as its plan describes it. */
  ghost predicate PlansFor(job: Job, chunk: ChunkPlan) {
    HasChunk(job.layout, chunk.chunkId) && forall n | n in chunk.desired :: Placement.IsNodeId(n)
  }

  /** One entry per chunk of the layout, in order, with the nodes that the placement selects. */
  ghost predicate Plans(job: Job, plan: seq<ChunkPlan>) {
    && |plan| == |job.layout.chunks|
    && forall i | 0 <= i < |plan| ::
         && PlansFor(job, plan[i])
         && plan[i].chunkId == job.layout.chunks[i].chunkId && plan[i].size == job.layout.chunks[i].size
         && plan[i].desired == Placement.Select(job.digest, plan[i].chunkId, job.run.placement, job.run.replicationFactor)
  }

  /** What a repair starts from when it has been given its plan. */
  lemma JobBegins(w: World, runId: RunId, downgraded: set<Replica>) returns (job: Job)
    requires Inv(w) && GetReplicationPlan(w.db, runId).Ok?
    ensures var plan := GetReplicationPlan(w.db, runId).value;
            && job.runId == runId && job.run == w.db.replicationRuns[runId]
            && Concerns(job, w) && Plans(job, plan) && PlanListed(job, w, downgraded, plan)
            && ReplicaCount(plan) == |job.layout.chunks| * job.run.replicationFactor
  {
    var plan := GetReplicationPlan(w.db, runId).value;
    var run := w.db.replicationRuns[runId];
    job := Job(runId, run, w.db.layouts[run.layoutId], w.db.hashing.digest);
    PlanIsSound(w.db, runId);
    forall i | 0 <= i < |plan|
      ensures SourcesListed(job, w, downgraded, plan[i])
    {
      assert forall j | 0 <= j < |plan[i].sources| :: plan[i].sources[j] in plan[i].sources;
    }
  }

  /** Some replica of the plan has been declared bad. */
  ghost predicate SomeDowngraded(plan: seq<ChunkPlan>, downgraded: set<Replica>) {
    exists i, n | 0 <= i < |plan| && n in plan[i].desired :: (plan[i].chunkId, n) in downgraded
  }

  /** The completing call is refused only if somebody declared one of the replicas bad. */
  lemma CompletionFollows(job: Job, w: World, downgraded: set<Replica>, plan: seq<ChunkPlan>)
    requires Inv(w) && Concerns(job, w) && Plans(job, plan) && PlanSecured(job, w, downgraded, plan)
    ensures var reply := CompleteReplicationRun(w.db, job.runId);
            || reply.result == Ok(job.run.(open := false))
            || (reply.result == Err(UnderReplicated) && SomeDowngraded(plan, downgraded))
  {
    if WorkOpen(w.db, Repairing(job.runId)) {
      assert ReplicationOpen(w.db.replicationRuns);
      var run := w.db.replicationRuns[job.runId];
      if !SomeDowngraded(plan, downgraded) {
        forall i | 0 <= i < |plan|
          ensures ReplicasAvailable(w.db, run, plan[i].chunkId)
        {
          EntryIsAvailable(job, w, downgraded, plan, i);
        }
        assert ReplicationSatisfied(w.db, run, job.layout);
      }
    }
  }

  lemma EntryIsAvailable(job: Job, w: World, downgraded: set<Replica>, plan: seq<ChunkPlan>, i: nat)
    requires Concerns(job, w) && Plans(job, plan) && PlanSecured(job, w, downgraded, plan) && i < |plan|
    requires WorkOpen(w.db, Repairing(job.runId)) && !SomeDowngraded(plan, downgraded)
    ensures ReplicasAvailable(w.db, w.db.replicationRuns[job.runId], plan[i].chunkId)
  {
    var desired := plan[i].desired;
    assert AllSecured(job, w, downgraded, plan[i].chunkId, desired);
    forall j | 0 <= j < |desired|
      ensures IsAvailable(w.db, plan[i].chunkId, desired[j])
    {
      assert Secured(job, w, downgraded, plan[i].chunkId, desired[j]);
      assert desired[j] in desired;
    }
  }

  // ---------------------------------------------------------------------------------------------
  // The sources of one chunk
  // ---------------------------------------------------------------------------------------------

  /** The requests that asking these nodes takes. */
  function Requests(pool: set<NodeId>, nodes: seq<NodeId>): nat {
    if nodes == [] then 0 else Requests(pool, nodes[..|nodes| - 1]) + if nodes[|nodes| - 1] in pool then 1 else 0
  }

  predicate PassedOver(answer: Option<Answer>) {
    answer.None? || answer.value.Lacking? || answer.value.Failed?
  }

  function Failovers(answers: seq<Option<Answer>>): nat {
    if answers == [] then 0
    else Failovers(answers[..|answers| - 1]) + if answers[|answers| - 1] == Some(Failed) then 1 else 0
  }

  /** What the `i`-th source says when it is its turn; nodes that are not in the pool are not asked. */
  ghost function AnswerFor(d: Deployment, start: nat, chunk: ChunkPlan, i: nat): Option<Answer>
    requires i < |chunk.sources|
  {
    if chunk.sources[i] in d.pool
    then Some(d.AnswerAt(start + Requests(d.pool, chunk.sources[..i]), chunk.sources[i], chunk.chunkId)) else None
  }

  ghost predicate AnswersOf(d: Deployment, start: nat, chunk: ChunkPlan, answers: seq<Option<Answer>>) {
    |answers| <= |chunk.sources| && forall i | 0 <= i < |answers| :: answers[i] == AnswerFor(d, start, chunk, i)
  }

  lemma OneMoreRequest(pool: set<NodeId>, nodes: seq<NodeId>, n: nat)
    requires n < |nodes|
    ensures Requests(pool, nodes[..n + 1]) == Requests(pool, nodes[..n]) + if nodes[n] in pool then 1 else 0
  {
    assert nodes[..n + 1][..n] == nodes[..n];
  }

  lemma OneMoreFailover(answers: seq<Option<Answer>>, next: Option<Answer>)
    ensures Failovers(answers + [next]) == Failovers(answers) + if next == Some(Failed) then 1 else 0
  {
    assert (answers + [next])[..|answers|] == answers;
  }

  lemma OneMoreAnswer(d: Deployment, start: nat, chunk: ChunkPlan, answers: seq<Option<Answer>>, next: Option<Answer>)
    requires AnswersOf(d, start, chunk, answers) && |answers| < |chunk.sources| && next == AnswerFor(d, start, chunk, |answers|)
    ensures AnswersOf(d, start, chunk, answers + [next])
    ensures Failovers(answers + [next]) == Failovers(answers) + if next == Some(Failed) then 1 else 0
  {
    OneMoreFailover(answers, next);
  }

  ghost predicate AllPassedOver(answers: seq<Option<Answer>>) {
    forall i | 0 <= i < |answers| :: PassedOver(answers[i])
  }

  /** What an answer that is not passed over makes of the fetch. */
  function Decided(answer: Answer, size: nat): Result<Bytes, RepairError> {
    match answer
    case Supplied(bytes) => if |bytes| == size then Ok(bytes) else Err(SourceSizeMismatch)
    case _ => Err(SourceConnectionFailed)
  }

  /** The counters after `n` copies. */
  function Copied(stats: RepairStats, n: nat, size: nat): RepairStats {
    if n == 0 then stats
    else
      var counted := Copied(stats, n - 1, size);
      counted.(replicasWritten := counted.replicasWritten + 1, bytesCopied := counted.bytesCopied + size)
  }

  lemma {:induction false} CopiedIs(stats: RepairStats, n: nat, size: nat)
    ensures Copied(stats, n, size) == stats.(replicasWritten := stats.replicasWritten + n, bytesCopied := stats.bytesCopied + n * size)
  {
    if n > 0 {
      CopiedIs(stats, n - 1, size);
    }
  }

  /** All sources before the last one asked were passed over, and that one decides the result. */
  ghost predicate FetchEnds(answers: seq<Option<Answer>>, chunk: ChunkPlan, result: Result<Bytes, RepairError>) {
    || (AllPassedOver(answers) && |answers| == |chunk.sources| && result == Err(NoHealthySource))
    || exists last :: LastAnswer(answers, last) && result == Decided(last, chunk.size)
  }

  ghost predicate LastAnswer(answers: seq<Option<Answer>>, last: Answer) {
    && answers != [] && AllPassedOver(answers[..|answers| - 1])
    && answers[|answers| - 1] == Some(last) && !PassedOver(Some(last))
  }

  lemma EndsHere(answers: seq<Option<Answer>>, last: Answer, chunk: ChunkPlan)
    requires AllPassedOver(answers) && !PassedOver(Some(last))
    ensures FetchEnds(answers + [Some(last)], chunk, Decided(last, chunk.size))
  {
    assert (answers + [Some(last)])[..|answers|] == answers;
    assert LastAnswer(answers + [Some(last)], last);
  }

  /** The counters after a chunk has been repaired. */
  ghost predicate ChunkCounted(stats: RepairStats, chunk: ChunkPlan, after: RepairStats) {
    && after.chunksScanned == stats.chunksScanned + 1
    && after.replicasVerified + after.replicasWritten == stats.replicasVerified + stats.replicasWritten + |chunk.desired|
    && after.replicasWritten >= stats.replicasWritten
    && after.bytesCopied == stats.bytesCopied + (after.replicasWritten - stats.replicasWritten) * chunk.size
    && after.chunksUnderReplicated == stats.chunksUnderReplicated + (if after.replicasWritten > stats.replicasWritten then 1 else 0)
  }

  lemma AllOfThemSecured(job: Job, w: World, downgraded: set<Replica>, chunk: ChunkPlan, targets: seq<NodeId>, present: seq<NodeId>)
    requires AllSecured(job, w, downgraded, chunk.chunkId, targets) || targets == []
    requires AllSecured(job, w, downgraded, chunk.chunkId, present)
    requires forall n | n in chunk.desired :: n in targets || n in present
    ensures AllSecured(job, w, downgraded, chunk.chunkId, chunk.desired)
  {
    forall i | 0 <= i < |chunk.desired|
      ensures Secured(job, w, downgraded, chunk.chunkId, chunk.desired[i])
    {
      var n := chunk.desired[i];
      if n in targets {
        var j :| 0 <= j < |targets| && targets[j] == n;
      } else {
        var j :| 0 <= j < |present| && present[j] == n;
      }
    }
  }

  /** The counters when these chunks have been repaired. */
  ghost predicate AllCounted(done: seq<ChunkPlan>, stats: RepairStats) {
    && stats.chunksScanned == |done|
    && stats.replicasVerified + stats.replicasWritten == ReplicaCount(done)
    && stats.chunksUnderReplicated <= stats.replicasWritten
  }

  lemma NothingDone(job: Job, w: World, downgraded: set<Replica>)
    ensures PlanSecured(job, w, downgraded, []) && AllCounted([], NO_STATS)
  {
  }

  lemma ListedEntry(job: Job, w: World, downgraded: set<Replica>, plan: seq<ChunkPlan>, i: nat)
    requires i < |plan| && PlanListed(job, w, downgraded, plan) && Plans(job, plan)
    ensures SourcesListed(job, w, downgraded, plan[i]) && PlansFor(job, plan[i])
  {
  }

  lemma NextDone(job: Job, w: World, later: World, before: set<Replica>, downgraded: set<Replica>,
                 plan: seq<ChunkPlan>, done: seq<ChunkPlan>, chunk: ChunkPlan, stats: RepairStats, after: RepairStats)
    requires Concerns(job, w) && Acted(w, later, downgraded) && before <= downgraded
    requires Plans(job, plan) && done <= plan
    requires PlanSecured(job, w, before, done) && AllSecured(job, later, downgraded, chunk.chunkId, chunk.desired)
    requires AllCounted(done, stats) && ChunkCounted(stats, chunk, after)
    ensures PlanSecured(job, later, downgraded, done + [chunk]) && AllCounted(done + [chunk], after)
  {
    assert forall i | 0 <= i < |done| :: done[i] == plan[i] && PlansFor(job, plan[i]);
    PlanSecuredStays(job, w, later, before, downgraded, done);
    assert (done + [chunk])[..|done|] == done;
  }

  function NoJob(w: World): Job {
    Job("", ReplicationRun("", "", 0, [], false), Descriptor("", 0, FixedSize, []), w.db.hashing.digest)
  }

  lemma RunIsKept(w: World, later: World, downgraded: set<Replica>, runId: RunId)
    requires Acted(w, later, downgraded) && runId in w.db.replicationRuns
    ensures runId in later.db.replicationRuns
    ensures later.db.replicationRuns[runId] == w.db.replicationRuns[runId].(open := later.db.replicationRuns[runId].open)
  {
  }

  lemma PlanRefusals(w: World, runId: RunId)
    requires Inv(w) && runId in w.db.replicationRuns && GetReplicationPlan(w.db, runId).Err?
    ensures GetReplicationPlan(w.db, runId).error in {RunNotOpen, TargetDisabled}
  {
  }

  lemma CompletedRunIsRecorded(db: Db, runId: RunId)
    ensures var reply := CompleteReplicationRun(db, runId);
            reply.result.Ok? ==> runId in reply.db.replicationRuns && reply.db.replicationRuns[runId] == reply.result.value
  {
  }

  lemma SecuredMeansKept(job: Job, w: World, downgraded: set<Replica>, plan: seq<ChunkPlan>)
    requires PlanSecured(job, w, downgraded, plan)
    ensures forall i, n | 0 <= i < |plan| && n in plan[i].desired :: Kept(job, w, plan[i].chunkId, n)
  {
    forall i, n | 0 <= i < |plan| && n in plan[i].desired
      ensures Kept(job, w, plan[i].chunkId, n)
    {
      assert AllSecured(job, w, downgraded, plan[i].chunkId, plan[i].desired);
      var j :| 0 <= j < |plan[i].desired| && plan[i].desired[j] == n;
      assert Secured(job, w, downgraded, plan[i].chunkId, n);
    }
  }

  class RepairEngine {
    const deployment: Deployment

    constructor (deployment: Deployment)
      ensures this.deployment == deployment
    {
      this.deployment := deployment;
    }

    /** Which desired replicas of a chunk are missing. */
    method FindTargets(ghost job: Job, chunk: ChunkPlan, stats: RepairStats) 
      returns (result: Result<seq<NodeId>, RepairError>, verified: RepairStats, ghost present: seq<NodeId>)
      requires deployment.Valid() && Concerns(job, deployment.Now()) && PlansFor(job, chunk)
      requires SourcesListed(job, deployment.Now(), deployment.downgraded, chunk)
      modifies deployment, deployment.repository
      ensures deployment.Valid() && Acted(old(deployment.Now()), deployment.Now(), deployment.downgraded)
      ensures old(deployment.downgraded) <= deployment.downgraded && Concerns(job, deployment.Now())
      ensures result.Ok? ==>
                && verified == stats.(replicasVerified := verified.replicasVerified)
                && verified.replicasVerified + |result.value| == stats.replicasVerified + |chunk.desired|
                && (forall n | n in result.value :: n in chunk.desired)
                && (forall n | n in chunk.desired :: n in result.value || n in present)
                && AllSecured(job, deployment.Now(), deployment.downgraded, chunk.chunkId, present)
      ensures result == Err(TargetNotInPool) ==> exists n :: n in chunk.desired && n !in deployment.pool
      ensures result.Err? ==> result.error in {TargetNotInPool, RequestFailed}
    {
      hide Acted, Inv;
      verified := stats;
      var needing: seq<NodeId> := [];
      present := [];
      ghost var first, before := deployment.Now(), deployment.downgraded;
      NothingActed(first, before);
      for index := 0 to |chunk.desired|
        invariant deployment.Valid() && Acted(first, deployment.Now(), deployment.downgraded) && before <= deployment.downgraded
        invariant Concerns(job, deployment.Now()) && SourcesListed(job, deployment.Now(), deployment.downgraded, chunk)
        invariant verified == stats.(replicasVerified := verified.replicasVerified)
        invariant verified.replicasVerified + |needing| == stats.replicasVerified + index
        invariant forall n | n in needing :: n in chunk.desired
        invariant forall i | 0 <= i < index :: chunk.desired[i] in needing || chunk.desired[i] in present
        invariant AllSecured(job, deployment.Now(), deployment.downgraded, chunk.chunkId, present)
      {
        var node := chunk.desired[index];
        if node !in deployment.pool {
          return Err(TargetNotInPool), verified, present;
        }
        var has := Some(false);
        if node in chunk.sources {
          has := AskNode(job, chunk, node, present, first);
        }
        if has.None? {
          return Err(RequestFailed), verified, present;
        }
        if has.value {
          verified := verified.(replicasVerified := verified.replicasVerified + 1);
          OneMoreSecured(job, deployment.Now(), deployment.downgraded, chunk.chunkId, present, node);
          present := present + [node];
        } else {
          needing := needing + [node];
        }
      }
      result := Ok(needing);
    }

    /** Asks a node that is listed as a source whether it really has the chunk. */
    method AskNode(ghost job: Job, chunk: ChunkPlan, node: NodeId, ghost present: seq<NodeId>, ghost first: World) returns (has: Option<bool>)
      requires deployment.Valid() && Concerns(job, deployment.Now()) && PlansFor(job, chunk)
      requires Acted(first, deployment.Now(), deployment.downgraded)
      requires SourcesListed(job, deployment.Now(), deployment.downgraded, chunk) && node in chunk.sources
      requires AllSecured(job, deployment.Now(), deployment.downgraded, chunk.chunkId, present)
      modifies deployment, deployment.repository
      ensures deployment.Valid() && Acted(first, deployment.Now(), deployment.downgraded)
      ensures old(deployment.downgraded) <= deployment.downgraded && Concerns(job, deployment.Now())
      ensures SourcesListed(job, deployment.Now(), deployment.downgraded, chunk)
      ensures AllSecured(job, deployment.Now(), deployment.downgraded, chunk.chunkId, present)
      ensures has == Some(true) ==> Secured(job, deployment.Now(), deployment.downgraded, chunk.chunkId, node)
    {
      ghost var w, before := deployment.Now(), deployment.downgraded;
      has := deployment.HasChunk(node, chunk.chunkId);
      ActedLonger(first, w, deployment.Now(), before, deployment.downgraded);
      ConcernStays(job, w, deployment.Now(), deployment.downgraded);
      SourcesListedStay(job, w, deployment.Now(), before, deployment.downgraded, chunk);
      AllSecuredStay(job, w, deployment.Now(), before, deployment.downgraded, chunk.chunkId, present);
    }

    /** Asks one source, if it is in the pool. */
    method AskSource(chunk: ChunkPlan, index: nat, ghost start: nat, ghost first: World) returns (answer: Option<Answer>)
      requires deployment.Valid() && Acted(first, deployment.Now(), deployment.downgraded) && index < |chunk.sources|
      requires deployment.clock == start + Requests(deployment.pool, chunk.sources[..index])
      modifies deployment, deployment.repository
      ensures deployment.Valid() && Acted(first, deployment.Now(), deployment.downgraded)
      ensures old(deployment.downgraded) <= deployment.downgraded
      ensures deployment.clock == start + Requests(deployment.pool, chunk.sources[..index + 1])
      ensures answer == AnswerFor(deployment, start, chunk, index)
      ensures answer.Some? && answer.value.Supplied? ==> deployment.sha(answer.value.bytes) == chunk.chunkId
    {
      OneMoreRequest(deployment.pool, chunk.sources, index);
      if chunk.sources[index] !in deployment.pool {
        return None;
      }
      ghost var w, before := deployment.Now(), deployment.downgraded;
      var said := deployment.GetChunk(chunk.sources[index], chunk.chunkId);
      ActedLonger(first, w, deployment.Now(), before, deployment.downgraded);
      return Some(said);
    }

    /** Asks the sources in order until one supplies the chunk. `answers` are what was said, in that order. */
    method FetchChunk(chunk: ChunkPlan, stats: RepairStats) returns (result: Result<Bytes, RepairError>, counted: RepairStats, ghost answers: seq<Option<Answer>>)
      requires deployment.Valid()
      modifies deployment, deployment.repository
      ensures deployment.Valid() && Acted(old(deployment.Now()), deployment.Now(), deployment.downgraded)
      ensures old(deployment.downgraded) <= deployment.downgraded
      ensures AnswersOf(deployment, old(deployment.clock), chunk, answers)
      ensures counted == stats.(sourceFailovers := stats.sourceFailovers + Failovers(answers))
      ensures FetchEnds(answers, chunk, result)
      ensures result.Ok? ==> deployment.sha(result.value) == chunk.chunkId
    {
      hide Acted, Inv;
      counted, answers := stats, [];
      ghost var first, start := deployment.Now(), deployment.clock;
      NothingActed(first, deployment.downgraded);
      for index := 0 to |chunk.sources|
        invariant deployment.Valid() && Acted(first, deployment.Now(), deployment.downgraded)
        invariant old(deployment.downgraded) <= deployment.downgraded
        invariant |answers| == index && AnswersOf(deployment, start, chunk, answers)
        invariant deployment.clock == start + Requests(deployment.pool, chunk.sources[..index])
        invariant counted == stats.(sourceFailovers := stats.sourceFailovers + Failovers(answers))
        invariant AllPassedOver(answers)
      {
        var answer := AskSource(chunk, index, start, first);
        OneMoreAnswer(deployment, start, chunk, answers, answer);
        if answer.Some? && (answer.value.Supplied? || answer.value.Lost?) {
          EndsHere(answers, answer.value, chunk);
          return Decided(answer.value, chunk.size), counted, answers + [answer];
        }
        if answer == Some(Failed) {
          counted := counted.(sourceFailovers := counted.sourceFailovers + 1);
        }
        answers := answers + [answer];
      }
      result := Err(NoHealthySource);
    }

    /** Stores the chunk on one node and registers it. */
    method CopyToOne(ghost job: Job, chunk: ChunkPlan, node: NodeId, bytes: Bytes, ghost copied: seq<NodeId>, ghost first: World)
      returns (error: Option<RepairError>)
      requires deployment.Valid() && Concerns(job, deployment.Now()) && PlansFor(job, chunk) && node in chunk.desired
      requires Acted(first, deployment.Now(), deployment.downgraded)
      requires AllSecured(job, deployment.Now(), deployment.downgraded, chunk.chunkId, copied)
      modifies deployment, deployment.repository
      ensures deployment.Valid() && Acted(first, deployment.Now(), deployment.downgraded)
      ensures old(deployment.downgraded) <= deployment.downgraded && Concerns(job, deployment.Now())
      ensures AllSecured(job, deployment.Now(), deployment.downgraded, chunk.chunkId, copied)
      ensures error.None? ==> Secured(job, deployment.Now(), deployment.downgraded, chunk.chunkId, node)
      ensures error.Some? ==> error.value == RequestFailed || (error.value.RegistrationRefused? && !WorkOpen(deployment.repository.db, Repairing(job.runId)))
    {
      ghost var w, before := deployment.Now(), deployment.downgraded;
      var stored := deployment.PutChunk(node, chunk.chunkId, bytes);
      ghost var mid, meanwhile := deployment.Now(), deployment.downgraded;
      ConcernStays(job, w, mid, meanwhile);
      ActedLonger(first, w, mid, before, meanwhile);
      AllSecuredStay(job, w, mid, before, meanwhile, chunk.chunkId, copied);
      if !stored {
        return Some(RequestFailed);
      }
      var reply := deployment.RegisterAvailable(node, chunk.chunkId);
      ConcernStays(job, mid, deployment.Now(), deployment.downgraded);
      ActedLonger(first, mid, deployment.Now(), meanwhile, deployment.downgraded);
      AllSecuredStay(job, mid, deployment.Now(), meanwhile, deployment.downgraded, chunk.chunkId, copied);
      KeptStays(job, mid, deployment.Now(), deployment.downgraded, chunk.chunkId, node);
      if reply.None? {
        return Some(RequestFailed);
      }
      if reply.value.Err? {
        return Some(RegistrationRefused(reply.value.error));
      }
      return None;
    }

    /** Stores and registers the chunk on the nodes that lack it. */
    method CopyTo(ghost job: Job, chunk: ChunkPlan, targets: seq<NodeId>, bytes: Bytes, stats: RepairStats)
      returns (result: Result<RepairStats, RepairError>)
      requires deployment.Valid() && Concerns(job, deployment.Now()) && PlansFor(job, chunk)
      requires forall n | n in targets :: n in chunk.desired
      modifies deployment, deployment.repository
      ensures deployment.Valid() && Acted(old(deployment.Now()), deployment.Now(), deployment.downgraded)
      ensures old(deployment.downgraded) <= deployment.downgraded && Concerns(job, deployment.Now())
      ensures result.Ok? ==>
                && AllSecured(job, deployment.Now(), deployment.downgraded, chunk.chunkId, targets)
                && result.value == Copied(stats, |targets|, chunk.size)
      ensures result.Err? ==>
                result.error == RequestFailed || (result.error.RegistrationRefused? && !WorkOpen(deployment.repository.db, Repairing(job.runId)))
    {
      hide Acted, Inv;
      var counted := stats;
      ghost var first := deployment.Now();
      ghost var copied: seq<NodeId> := [];
      NothingActed(first, deployment.downgraded);
      for index := 0 to |targets|
        invariant deployment.Valid() && Acted(first, deployment.Now(), deployment.downgraded)
        invariant old(deployment.downgraded) <= deployment.downgraded && Concerns(job, deployment.Now())
        invariant AllSecured(job, deployment.Now(), deployment.downgraded, chunk.chunkId, copied)
        invariant |copied| == index && copied <= targets
        invariant counted == Copied(stats, index, chunk.size)
      {
        var error := CopyToOne(job, chunk, targets[index], bytes, copied, first);
        if error.Some? {
          return Err(error.value);
        }
        OneMoreSecured(job, deployment.Now(), deployment.downgraded, chunk.chunkId, copied, targets[index]);
        copied := copied + [targets[index]];
        counted := counted.(replicasWritten := counted.replicasWritten + 1, bytesCopied := counted.bytesCopied + chunk.size);
      }
      assert copied == targets;
      return Ok(counted);
    }

    /** Fetches a chunk that is missing somewhere and copies it there. */
    method CopyMissing(ghost job: Job, chunk: ChunkPlan, targets: seq<NodeId>, ghost present: seq<NodeId>, stats: RepairStats)
      returns (result: Result<RepairStats, RepairError>)
      requires deployment.Valid() && Concerns(job, deployment.Now()) && PlansFor(job, chunk)
      requires forall n | n in targets :: n in chunk.desired
      requires AllSecured(job, deployment.Now(), deployment.downgraded, chunk.chunkId, present)
      modifies deployment, deployment.repository
      ensures deployment.Valid() && Acted(old(deployment.Now()), deployment.Now(), deployment.downgraded)
      ensures old(deployment.downgraded) <= deployment.downgraded && Concerns(job, deployment.Now())
      ensures result.Ok? ==>
                && AllSecured(job, deployment.Now(), deployment.downgraded, chunk.chunkId, targets)
                && AllSecured(job, deployment.Now(), deployment.downgraded, chunk.chunkId, present)
                && result.value == Copied(stats.(sourceFailovers := result.value.sourceFailovers), |targets|, chunk.size)
      ensures result.Err? ==> !result.error.PlanRefused? && !result.error.CompletionRefused?
    {
      hide Acted, Inv, AllSecured;
      ghost var w, before := deployment.Now(), deployment.downgraded;
      var fetched, counted;
      ghost var answers;
      fetched, counted, answers := FetchChunk(chunk, stats);
      ghost var mid, meanwhile := deployment.Now(), deployment.downgraded;
      ConcernStays(job, w, mid, meanwhile);
      AllSecuredStay(job, w, mid, before, meanwhile, chunk.chunkId, present);
      if fetched.Err? {
        return Err(fetched.error);
      }
      result := CopyTo(job, chunk, targets, fetched.value, counted);
      ActedLonger(w, mid, deployment.Now(), meanwhile, deployment.downgraded);
      AllSecuredStay(job, mid, deployment.Now(), meanwhile, deployment.downgraded, chunk.chunkId, present);
      CopiedIs(counted, |targets|, chunk.size);
    }

    method RepairChunk(ghost job: Job, chunk: ChunkPlan, stats: RepairStats) returns (result: Result<RepairStats, RepairError>)
      requires deployment.Valid() && Concerns(job, deployment.Now()) && PlansFor(job, chunk)
      requires SourcesListed(job, deployment.Now(), deployment.downgraded, chunk)
      modifies deployment, deployment.repository
      ensures deployment.Valid() && Acted(old(deployment.Now()), deployment.Now(), deployment.downgraded)
      ensures old(deployment.downgraded) <= deployment.downgraded && Concerns(job, deployment.Now())
      ensures result.Ok? ==> AllSecured(job, deployment.Now(), deployment.downgraded, chunk.chunkId, chunk.desired)
      ensures result.Ok? ==> ChunkCounted(stats, chunk, result.value)
      ensures result.Err? ==> !result.error.PlanRefused? && !result.error.CompletionRefused?
    {
      hide Acted, Inv, AllSecured;
      ghost var w, before := deployment.Now(), deployment.downgraded;
      var targets, counted;
      ghost var present;
      targets, counted, present := FindTargets(job, chunk, stats.(chunksScanned := stats.chunksScanned + 1));
      if targets.Err? {
        return Err(targets.error);
      }
      if targets.value == [] {
        AllOfThemSecured(job, deployment.Now(), deployment.downgraded, chunk, [], present);
        return Ok(counted);
      }
      counted := counted.(chunksUnderReplicated := counted.chunksUnderReplicated + 1);
      ghost var mid, meanwhile := deployment.Now(), deployment.downgraded;
      result := CopyMissing(job, chunk, targets.value, present, counted);
      ActedLonger(w, mid, deployment.Now(), meanwhile, deployment.downgraded);
      if result.Ok? {
        AllOfThemSecured(job, deployment.Now(), deployment.downgraded, chunk, targets.value, present);
        CopiedIs(counted.(sourceFailovers := result.value.sourceFailovers), |targets.value|, chunk.size);
      }
    }

    /** The loop over the chunks of the plan. */
    method RepairChunks(ghost job: Job, plan: seq<ChunkPlan>) returns (result: Result<RepairStats, RepairError>)
      requires deployment.Valid() && Concerns(job, deployment.Now()) && Plans(job, plan)
      requires PlanListed(job, deployment.Now(), deployment.downgraded, plan)
      modifies deployment, deployment.repository
      ensures deployment.Valid() && Acted(old(deployment.Now()), deployment.Now(), deployment.downgraded)
      ensures old(deployment.downgraded) <= deployment.downgraded && Concerns(job, deployment.Now())
      ensures result.Ok? ==>
                && PlanSecured(job, deployment.Now(), deployment.downgraded, plan)
                && AllCounted(plan, result.value)
      ensures result.Err? ==> !result.error.PlanRefused? && !result.error.CompletionRefused?
    {
      hide Acted, Inv, Concerns, Plans, PlanSecured, PlanListed, AllCounted;
      var stats := NO_STATS;
      ghost var done: seq<ChunkPlan> := [];
      ghost var first := deployment.Now();
      NothingActed(first, deployment.downgraded);
      NothingDone(job, first, deployment.downgraded);
      for index := 0 to |plan|
        invariant deployment.Valid() && Acted(first, deployment.Now(), deployment.downgraded)
        invariant old(deployment.downgraded) <= deployment.downgraded && Concerns(job, deployment.Now())
        invariant |done| == index && done <= plan
        invariant PlanSecured(job, deployment.Now(), deployment.downgraded, done)
        invariant PlanListed(job, deployment.Now(), deployment.downgraded, plan)
        invariant AllCounted(done, stats)
      {
        ghost var w, before := deployment.Now(), deployment.downgraded;
        ListedEntry(job, w, before, plan, index);
        var repaired := RepairChunk(job, plan[index], stats);
        if repaired.Ok? {
          NextDone(job, w, deployment.Now(), before, deployment.downgraded, plan, done, plan[index], stats, repaired.value);
        }
        ActedLonger(first, w, deployment.Now(), before, deployment.downgraded);
        PlanListedStays(job, w, deployment.Now(), before, deployment.downgraded, plan);
        if repaired.Err? {
          return Err(repaired.error);
        }
        stats := repaired.value;
        done := done + [plan[index]];
      }
      assert done == plan;
      return Ok(stats);
    }

    /** Gets the plan of an open run and works through it. */
    method FollowPlan(runId: RunId, ghost run: ReplicationRun)
      returns (result: Result<RepairStats, RepairError>, ghost job: Job, ghost plan: seq<ChunkPlan>)
      requires deployment.Valid() && runId in deployment.repository.db.replicationRuns
      requires deployment.repository.db.replicationRuns[runId] == run && run.open
      modifies deployment, deployment.repository
      ensures deployment.Valid() && Acted(old(deployment.Now()), deployment.Now(), deployment.downgraded)
      ensures old(deployment.downgraded) <= deployment.downgraded
      ensures result.Ok? ==>
                && Concerns(job, deployment.Now()) && job.runId == runId && job.run == run && Plans(job, plan)
                && PlanSecured(job, deployment.Now(), deployment.downgraded, plan)
                && AllCounted(plan, result.value) && ReplicaCount(plan) == |job.layout.chunks| * run.replicationFactor
      ensures result.Err? && result.error.PlanRefused? ==> result.error.error in {RunNotOpen, TargetDisabled}
      ensures result.Err? ==> !result.error.CompletionRefused?
    {
      hide Acted, Inv, Concerns, PlanSecured, PlanListed;
      ghost var w, before := deployment.Now(), deployment.downgraded;
      job, plan := NoJob(w), [];
      var planned := deployment.GetReplicationPlan(runId);
      ghost var mid, meanwhile := deployment.Now(), deployment.downgraded;
      if planned.None? {
        return Err(RequestFailed), job, plan;
      }
      RunIsKept(w, mid, meanwhile, runId);
      if planned.value.Err? {
        PlanRefusals(mid, runId);
        return Err(PlanRefused(planned.value.error)), job, plan;
      }
      job := JobBegins(mid, runId, meanwhile);
      plan := planned.value.value;
      result := RepairChunks(job, planned.value.value);
      ActedLonger(w, mid, deployment.Now(), meanwhile, deployment.downgraded);
    }

    /** The completing call of a repair that has worked through its plan. */
    method Complete(ghost job: Job, runId: RunId, ghost plan: seq<ChunkPlan>) returns (result: Result<ReplicationRun, RepairError>)
      requires deployment.Valid() && Concerns(job, deployment.Now()) && job.runId == runId && Plans(job, plan)
      requires PlanSecured(job, deployment.Now(), deployment.downgraded, plan)
      modifies deployment, deployment.repository
      ensures deployment.Valid() && Acted(old(deployment.Now()), deployment.Now(), deployment.downgraded)
      ensures old(deployment.downgraded) <= deployment.downgraded && Concerns(job, deployment.Now())
      ensures PlanSecured(job, deployment.Now(), deployment.downgraded, plan)
      ensures result.Ok? ==>
                && runId in deployment.repository.db.replicationRuns && deployment.repository.db.replicationRuns[runId] == result.value
                && result.value == job.run.(open := false)
      ensures result.Err? ==>
                result.error == RequestFailed || (result.error == CompletionRefused(UnderReplicated) && SomeDowngraded(plan, deployment.downgraded))
    {
      hide Acted, Inv, Concerns, PlanSecured;
      ghost var w, before := deployment.Now(), deployment.downgraded;
      var reply;
      ghost var at;
      reply, at := deployment.CompleteReplicationRun(runId);
      ConcernStays(job, w, at, deployment.downgraded);
      ConcernStays(job, w, deployment.Now(), deployment.downgraded);
      PlanSecuredStays(job, w, at, before, deployment.downgraded, plan);
      PlanSecuredStays(job, w, deployment.Now(), before, deployment.downgraded, plan);
      if reply.None? {
        return Err(RequestFailed);
      }
      CompletionFollows(job, at, deployment.downgraded, plan);
      if reply.value.Err? {
        return Err(CompletionRefused(reply.value.error));
      }
      CompletedRunIsRecorded(at.db, runId);
      return Ok(reply.value.value);
    }

    /** A whole repair. If it succeeds, the run is closed, every chunk of its layout is on every node that
        the placement selects unless the version has been retired meanwhile, and verified and written
        replicas add up to all of them, even when the layout repeats a chunk. Once all chunks have been
        worked through, the completion is refused only if somebody declared one of these replicas bad. */
    method Repair(runId: RunId, versionId: VersionId, replicationFactor: nat)
      returns (result: Result<RepairResult, RepairError>, ghost job: Job, ghost plan: seq<ChunkPlan>)
      requires deployment.Valid()
      modifies deployment, deployment.repository
      ensures deployment.Valid() && Acted(old(deployment.Now()), deployment.Now(), deployment.downgraded)
      ensures result.Ok? ==>
                && runId in deployment.repository.db.replicationRuns
                && deployment.repository.db.replicationRuns[runId] == result.value.run
                && !result.value.run.open
                && result.value.run.versionId == versionId && result.value.run.replicationFactor == replicationFactor
      ensures result.Ok? && result.value.Repaired? ==>
                && Concerns(job, deployment.Now()) && job.run == result.value.run.(open := true) && Plans(job, plan)
                && (forall i, n | 0 <= i < |plan| && n in plan[i].desired :: Kept(job, deployment.Now(), plan[i].chunkId, n))
                && result.value.stats.chunksScanned == |job.layout.chunks|
                && result.value.stats.replicasVerified + result.value.stats.replicasWritten == |job.layout.chunks| * replicationFactor
                && result.value.stats.chunksUnderReplicated <= result.value.stats.replicasWritten
      ensures result.Err? && result.error.PlanRefused? ==> result.error.error in {RunNotOpen, TargetDisabled}
      ensures result.Err? && result.error.CompletionRefused? ==>
                result.error.error == UnderReplicated && Plans(job, plan) && SomeDowngraded(plan, deployment.downgraded)
    {
      hide Acted, Inv, Concerns, PlanSecured;
      ghost var first := deployment.Now();
      job, plan := NoJob(first), [];
      var started := deployment.StartReplicationRun(runId, versionId, replicationFactor);
      if started.None? {
        return Err(RequestFailed), job, plan;
      }
      if started.value.Err? {
        return Err(StartRefused(started.value.error)), job, plan;
      }
      var run := started.value.value;
      if !run.open {
        return Ok(AlreadyCompleted(run)), job, plan;
      }
      ghost var w, before := deployment.Now(), deployment.downgraded;
      var stats;
      stats, job, plan := FollowPlan(runId, run);
      ghost var mid, meanwhile := deployment.Now(), deployment.downgraded;
      ActedLonger(first, w, mid, before, meanwhile);
      if stats.Err? {
        return Err(stats.error), job, plan;
      }
      var completed := Complete(job, runId, plan);
      ActedLonger(first, mid, deployment.Now(), meanwhile, deployment.downgraded);
      if completed.Err? {
        return Err(completed.error), job, plan;
      }
      SecuredMeansKept(job, deployment.Now(), deployment.downgraded, plan);
      return Ok(Repaired(completed.value, stats.value)), job, plan;
    }
  }
}
