/** The data plane of a push: one producer feeds upload tasks through the bounded queue to a pool of
    workers, any of which can fail and cancel the rest (`worker_loop`, `process_upload_task`,
    `execute_push_data_plane` in src/push/push_engine.cpp). Every critical section, every finished
    replica and every failure is one event. */
module PushQueue {
  import opened Common
  import opened Sums
  import opened BoundedQueues

  /** A unique chunk and the nodes that are to hold it. */
  datatype Task = Task(chunkId: ChunkId, desired: seq<NodeId>)

  datatype Worker = Idle | Busy(task: nat, position: nat) | Failing | Cancelling | Exited

  datatype Producer = Producing | ProducerFailing | ProducerCancelling | ProducerDone

  datatype State = State(
    queue: Queue<nat>,
    producer: Producer,
    workers: seq<Worker>,
    failed: bool,
    putRequests: nat,
    verifiedTargets: nat,
    // Bookkeeping that the engine does not keep: tasks pushed and popped so far, replicas finished for
    // each task, and the replicas found or stored.
    pushed: nat,
    popped: nat,
    progress: seq<nat>,
    confirmed: set<(ChunkId, NodeId)>)

  datatype Event =
    | PushNext
    | PushRefused
    | ProducerFails
    | ProducerRecords
    | ProducerCancels
    | CloseQueue
    | PopTask(worker: nat)
    | ReplicaVerified(worker: nat)
    | ReplicaPut(worker: nat)
    | TaskDone(worker: nat)
    | UploadFails(worker: nat)
    | WorkerRecords(worker: nat)
    | WorkerCancels(worker: nat)

  function Begin(tasks: seq<Task>, capacity: nat, workerCount: nat): State {
    State(Queue([], false, false, capacity), Producing, seq(workerCount, i => Idle), false, 0, 0, 0, 0, seq(|tasks|, i => 0), {})
  }

  predicate IsWorker(s: State, w: nat, worker: Worker) {
    w < |s.workers| && s.workers[w] == worker
  }

  predicate IsBusy(tasks: seq<Task>, s: State, w: nat) {
    && w < |s.workers| && s.workers[w].Busy?
    && s.workers[w].task < |tasks| && |s.progress| == |tasks|
    && s.workers[w].position <= |tasks[s.workers[w].task].desired|
  }

  predicate HasReplicaLeft(tasks: seq<Task>, s: State, w: nat) {
    IsBusy(tasks, s, w) && s.workers[w].position < |tasks[s.workers[w].task].desired|
  }

  predicate Enabled(tasks: seq<Task>, s: State, e: Event) {
    match e
    case PushNext => s.producer.Producing? && s.pushed < |tasks| && CanPush(s.queue) && !s.queue.closed
    case PushRefused => s.producer.Producing? && s.pushed < |tasks| && CanPush(s.queue) && s.queue.closed
    case ProducerFails => s.producer.Producing?
    case ProducerRecords => s.producer.ProducerFailing?
    case ProducerCancels => s.producer.ProducerCancelling?
    case CloseQueue => s.producer.Producing? && s.pushed == |tasks|
    case PopTask(w) => IsWorker(s, w, Idle) && CanPop(s.queue)
    case ReplicaVerified(w) => HasReplicaLeft(tasks, s, w)
    case ReplicaPut(w) => HasReplicaLeft(tasks, s, w)
    case TaskDone(w) => IsBusy(tasks, s, w) && !HasReplicaLeft(tasks, s, w)
    case UploadFails(w) => w < |s.workers| && s.workers[w].Busy?
    case WorkerRecords(w) => IsWorker(s, w, Failing)
    case WorkerCancels(w) => IsWorker(s, w, Cancelling)
  }

  function AfterReplica(tasks: seq<Task>, s: State, w: nat): State
    requires HasReplicaLeft(tasks, s, w)
  {
    var k, j := s.workers[w].task, s.workers[w].position;
    s.(workers := s.workers[w := Busy(k, j + 1)], progress := s.progress[k := s.progress[k] + 1],
       confirmed := s.confirmed + {(tasks[k].chunkId, tasks[k].desired[j])})
  }

  function Apply(tasks: seq<Task>, s: State, e: Event): State
    requires Enabled(tasks, s, e)
  {
    match e
    case PushNext => s.(queue := AfterPush(s.queue, s.pushed), pushed := s.pushed + 1)
    case PushRefused => s.(producer := ProducerFailing)
    case ProducerFails => s.(producer := ProducerFailing)
    case ProducerRecords => s.(producer := ProducerCancelling, failed := true)
    case ProducerCancels => s.(producer := ProducerDone, queue := AfterCancel(s.queue))
    case CloseQueue => s.(producer := ProducerDone, queue := AfterClose(s.queue))
    case PopTask(w) =>
      if |s.queue.items| == 0 then s.(workers := s.workers[w := Exited])
      else s.(workers := s.workers[w := Busy(s.queue.items[0], 0)], queue := AfterPop(s.queue), popped := s.popped + 1)
    case ReplicaVerified(w) => AfterReplica(tasks, s, w).(verifiedTargets := s.verifiedTargets + 1)
    case ReplicaPut(w) => AfterReplica(tasks, s, w).(putRequests := s.putRequests + 1)
    case TaskDone(w) => s.(workers := s.workers[w := Idle])
    case UploadFails(w) => s.(workers := s.workers[w := Failing])
    case WorkerRecords(w) => s.(workers := s.workers[w := Cancelling], failed := true)
    case WorkerCancels(w) => s.(workers := s.workers[w := Exited], queue := AfterCancel(s.queue))
  }

  // ---------------------------------------------------------------------------------------------
  // The invariant
  // ---------------------------------------------------------------------------------------------

  /** The queue holds exactly the tasks pushed and not yet popped, in order, until it is cancelled. */
  ghost predicate QueueOk(tasks: seq<Task>, s: State) {
    && ValidQueue(s.queue)
    && s.popped <= s.pushed <= |tasks|
    && (s.queue.cancelled || s.queue.items == seq(s.pushed - s.popped, i requires 0 <= i => s.popped + i))
  }

  ghost predicate Troubled(s: State) {
    s.failed || exists w | 0 <= w < |s.workers| :: s.workers[w] == Failing
  }

  ghost predicate Handles(workers: seq<Worker>, k: nat) {
    exists w | 0 <= w < |workers| :: workers[w].Busy? && workers[w].task == k
  }

  ghost predicate TaskConfirmed(tasks: seq<Task>, s: State, k: nat)
    requires k < |tasks| == |s.progress|
  {
    && s.progress[k] <= |tasks[k].desired|
    && forall j | 0 <= j < s.progress[k] :: (tasks[k].chunkId, tasks[k].desired[j]) in s.confirmed
  }

  /** Every popped task is finished or in the hands of exactly one worker; the others are untouched. */
  ghost predicate TasksOk(tasks: seq<Task>, s: State) {
    && |s.progress| == |tasks|
    && s.popped <= |tasks|
    && (forall w | 0 <= w < |s.workers| && s.workers[w].Busy? ::
          s.workers[w].task < s.popped && s.progress[s.workers[w].task] == s.workers[w].position)
    && (forall v, w | 0 <= v < w < |s.workers| && s.workers[v].Busy? && s.workers[w].Busy? :: s.workers[v].task != s.workers[w].task)
    && (forall k | 0 <= k < |tasks| :: TaskConfirmed(tasks, s, k))
    && (forall k | s.popped <= k < |tasks| :: s.progress[k] == 0)
    && (Troubled(s) || forall k | 0 <= k < s.popped :: Handles(s.workers, k) || s.progress[k] == |tasks[k].desired|)
  }

  ghost predicate PhaseOk(tasks: seq<Task>, s: State) {
    && (s.producer.ProducerDone? ==> s.queue.closed && (s.failed || s.pushed == |tasks|))
    && (s.producer.ProducerCancelling? ==> s.failed)
    && (s.queue.cancelled ==> s.failed)
    && (s.queue.closed ==> s.queue.cancelled || s.producer.ProducerDone?)
    && (forall w | 0 <= w < |s.workers| :: s.workers[w] == Exited ==> s.queue.closed && |s.queue.items| == 0)
    && (forall w | 0 <= w < |s.workers| :: s.workers[w] == Cancelling ==> s.failed)
  }

  function Identity(n: nat): nat { n }

  ghost predicate CountsOk(s: State) {
    s.putRequests + s.verifiedTargets == Sum(Identity, s.progress)
  }

  ghost predicate Inv(tasks: seq<Task>, s: State) {
    QueueOk(tasks, s) && TasksOk(tasks, s) && PhaseOk(tasks, s) && CountsOk(s)
  }

  lemma BeginSatisfiesInv(tasks: seq<Task>, capacity: nat, workerCount: nat)
    requires capacity > 0
    ensures Inv(tasks, Begin(tasks, capacity, workerCount))
  {
    SumOfEqual(Identity, seq(|tasks|, i => 0), 0);
  }

  lemma ProducerStepKeepsInv(tasks: seq<Task>, s: State, e: Event)
    requires Inv(tasks, s) && Enabled(tasks, s, e)
    requires e.PushNext? || e.PushRefused? || e.ProducerFails? || e.ProducerRecords? || e.ProducerCancels? || e.CloseQueue?
    ensures Inv(tasks, Apply(tasks, s, e))
  {
    var later := Apply(tasks, s, e);
    assert forall k | 0 <= k < |tasks| :: TaskConfirmed(tasks, s, k) ==> TaskConfirmed(tasks, later, k);
  }

  lemma PopKeepsTasks(tasks: seq<Task>, s: State, w: nat)
    requires QueueOk(tasks, s) && TasksOk(tasks, s) && PhaseOk(tasks, s) && Enabled(tasks, s, PopTask(w))
    ensures TasksOk(tasks, Apply(tasks, s, PopTask(w)))
  {
    var later := Apply(tasks, s, PopTask(w));
    assert forall v | 0 <= v < |s.workers| && v != w :: later.workers[v] == s.workers[v];
    assert forall k | 0 <= k < |tasks| :: TaskConfirmed(tasks, s, k) ==> TaskConfirmed(tasks, later, k);
    assert forall k :: Handles(s.workers, k) ==> Handles(later.workers, k);
    if |s.queue.items| > 0 {
      assert later.workers[w] == Busy(s.popped, 0);
    }
  }

  lemma PopKeepsInv(tasks: seq<Task>, s: State, w: nat)
    requires Inv(tasks, s) && Enabled(tasks, s, PopTask(w))
    ensures Inv(tasks, Apply(tasks, s, PopTask(w)))
  {
    PopKeepsTasks(tasks, s, w);
  }

  lemma ReplicaKeepsTasks(tasks: seq<Task>, s: State, w: nat)
    requires TasksOk(tasks, s) && HasReplicaLeft(tasks, s, w)
    ensures TasksOk(tasks, AfterReplica(tasks, s, w))
  {
    var later := AfterReplica(tasks, s, w);
    var k := s.workers[w].task;
    assert forall v | 0 <= v < |s.workers| && v != w :: later.workers[v] == s.workers[v];
    assert TaskConfirmed(tasks, s, k);
    assert forall i | 0 <= i < |tasks| :: TaskConfirmed(tasks, s, i) ==> TaskConfirmed(tasks, later, i);
    assert later.workers[w].Busy? && later.workers[w].task == k;
    assert forall i :: Handles(s.workers, i) ==> Handles(later.workers, i);
  }

  lemma ReplicaKeepsPhase(tasks: seq<Task>, s: State, w: nat)
    requires QueueOk(tasks, s) && PhaseOk(tasks, s) && HasReplicaLeft(tasks, s, w)
    ensures QueueOk(tasks, AfterReplica(tasks, s, w)) && PhaseOk(tasks, AfterReplica(tasks, s, w))
  {
    var later := AfterReplica(tasks, s, w);
    assert forall v | 0 <= v < |s.workers| && v != w :: later.workers[v] == s.workers[v];
  }

  lemma ReplicaKeepsInv(tasks: seq<Task>, s: State, e: Event)
    requires Inv(tasks, s) && Enabled(tasks, s, e) && (e.ReplicaVerified? || e.ReplicaPut?)
    ensures Inv(tasks, Apply(tasks, s, e))
  {
    ReplicaKeepsTasks(tasks, s, e.worker);
    ReplicaKeepsPhase(tasks, s, e.worker);
    OnlyCountersDiffer(tasks, AfterReplica(tasks, s, e.worker), Apply(tasks, s, e));
    ReplicaKeepsCounts(tasks, s, e);
  }

  lemma ReplicaKeepsCounts(tasks: seq<Task>, s: State, e: Event)
    requires TasksOk(tasks, s) && CountsOk(s) && Enabled(tasks, s, e) && (e.ReplicaVerified? || e.ReplicaPut?)
    ensures CountsOk(Apply(tasks, s, e))
  {
    var k := s.workers[e.worker].task;
    SumAfterUpdate(Identity, s.progress, k, s.progress[k] + 1);
  }

  lemma OnlyCountersDiffer(tasks: seq<Task>, s: State, later: State)
    requires QueueOk(tasks, s) && TasksOk(tasks, s) && PhaseOk(tasks, s)
    requires later == s.(putRequests := later.putRequests, verifiedTargets := later.verifiedTargets)
    ensures QueueOk(tasks, later) && TasksOk(tasks, later) && PhaseOk(tasks, later)
  {
    assert forall k | 0 <= k < |tasks| :: TaskConfirmed(tasks, s, k) ==> TaskConfirmed(tasks, later, k);
  }

  lemma WorkerStopsKeepsTasks(tasks: seq<Task>, s: State, e: Event)
    requires TasksOk(tasks, s) && PhaseOk(tasks, s) && Enabled(tasks, s, e)
    requires e.TaskDone? || e.UploadFails? || e.WorkerRecords? || e.WorkerCancels?
    ensures TasksOk(tasks, Apply(tasks, s, e))
  {
    var later := Apply(tasks, s, e);
    var w := e.worker;
    assert forall v | 0 <= v < |s.workers| && v != w :: later.workers[v] == s.workers[v];
    assert forall k | 0 <= k < |tasks| :: TaskConfirmed(tasks, s, k) ==> TaskConfirmed(tasks, later, k);
    if e.UploadFails? {
      assert later.workers[w] == Failing;
    } else {
      assert forall k | !(s.workers[w].Busy? && s.workers[w].task == k) :: Handles(s.workers, k) ==> Handles(later.workers, k);
    }
  }

  lemma WorkerStopsKeepsInv(tasks: seq<Task>, s: State, e: Event)
    requires Inv(tasks, s) && Enabled(tasks, s, e)
    requires e.TaskDone? || e.UploadFails? || e.WorkerRecords? || e.WorkerCancels?
    ensures Inv(tasks, Apply(tasks, s, e))
  {
    WorkerStopsKeepsTasks(tasks, s, e);
  }

  lemma StepKeepsInv(tasks: seq<Task>, s: State, e: Event)
    requires Inv(tasks, s) && Enabled(tasks, s, e)
    ensures Inv(tasks, Apply(tasks, s, e))
  {
    if e.PopTask? {
      PopKeepsInv(tasks, s, e.worker);
    } else if e.ReplicaVerified? || e.ReplicaPut? {
      ReplicaKeepsInv(tasks, s, e);
    } else if e.TaskDone? || e.UploadFails? || e.WorkerRecords? || e.WorkerCancels? {
      WorkerStopsKeepsInv(tasks, s, e);
    } else {
      ProducerStepKeepsInv(tasks, s, e);
    }
  }

  ghost predicate Schedule(tasks: seq<Task>, s: State, events: seq<Event>)
    decreases events
  {
    events != [] ==> Enabled(tasks, s, events[0]) && Schedule(tasks, Apply(tasks, s, events[0]), events[1..])
  }

  ghost function Run(tasks: seq<Task>, s: State, events: seq<Event>): State
    requires Schedule(tasks, s, events)
    decreases events
  {
    if events == [] then s else Run(tasks, Apply(tasks, s, events[0]), events[1..])
  }

  lemma {:induction false} RunKeepsInv(tasks: seq<Task>, s: State, events: seq<Event>)
    requires Inv(tasks, s) && Schedule(tasks, s, events)
    ensures Inv(tasks, Run(tasks, s, events))
    ensures |Run(tasks, s, events).workers| == |s.workers|
    decreases events
  {
    if events != [] {
      StepKeepsInv(tasks, s, events[0]);
      RunKeepsInv(tasks, Apply(tasks, s, events[0]), events[1..]);
    }
  }

  // ---------------------------------------------------------------------------------------------
  // Progress and termination
  // ---------------------------------------------------------------------------------------------

  ghost predicate Terminated(s: State) {
    s.producer.ProducerDone? && forall w | 0 <= w < |s.workers| :: s.workers[w] == Exited
  }

  predicate IsFailure(e: Event) {
    e.ProducerFails? || e.UploadFails?
  }

  /** A step that worker `w` can take without anything failing, unless it waits or has exited. */
  function WorkerEvent(tasks: seq<Task>, s: State, w: nat): Event
    requires w < |s.workers|
  {
    match s.workers[w]
    case Busy(_, _) => if HasReplicaLeft(tasks, s, w) then ReplicaPut(w) else TaskDone(w)
    case Failing => WorkerRecords(w)
    case Cancelling => WorkerCancels(w)
    case _ => PopTask(w)
  }

  /** No deadlock, whether the queue is open, closed or cancelled: some thread can always take a step
      that is not a failure, until all have finished. */
  lemma SomeThreadCanStep(tasks: seq<Task>, s: State) returns (e: Event)
    requires Inv(tasks, s) && |s.workers| > 0 && !Terminated(s)
    ensures Enabled(tasks, s, e) && !IsFailure(e)
  {
    match s.producer {
      case Producing =>
        if s.pushed == |tasks| {
          return CloseQueue;
        } else if s.queue.closed {
          return PushRefused;
        } else if |s.queue.items| < s.queue.capacity {
          return PushNext;
        } else {
          WorkerCanStep(tasks, s, 0);
          return WorkerEvent(tasks, s, 0);
        }
      case ProducerFailing => return ProducerRecords;
      case ProducerCancelling => return ProducerCancels;
      case ProducerDone =>
        var w :| 0 <= w < |s.workers| && s.workers[w] != Exited;
        WorkerCanStep(tasks, s, w);
        return WorkerEvent(tasks, s, w);
    }
  }

  lemma WorkerCanStep(tasks: seq<Task>, s: State, w: nat)
    requires Inv(tasks, s) && w < |s.workers| && s.workers[w] != Exited
    requires CanPop(s.queue)
    ensures Enabled(tasks, s, WorkerEvent(tasks, s, w))
  {
    if s.workers[w].Busy? {
      assert TaskConfirmed(tasks, s, s.workers[w].task);
    }
  }

  function TaskCost(task: Task): nat {
    |task.desired| + 4
  }

  function QueuedCost(tasks: seq<Task>): nat -> nat {
    (k: nat) => if k < |tasks| then TaskCost(tasks[k]) - 1 else 0
  }

  function WorkerWeight(tasks: seq<Task>): Worker -> nat {
    (worker: Worker) =>
      match worker
      case Idle => 1
      case Busy(k, j) => 3 + if k < |tasks| && j <= |tasks[k].desired| then |tasks[k].desired| - j else 0
      case Failing => 2
      case Cancelling => 1
      case Exited => 0
  }

  function ProducerWeight(producer: Producer): nat {
    match producer
    case Producing => 3
    case ProducerFailing => 2
    case ProducerCancelling => 1
    case ProducerDone => 0
  }

  function Measure(tasks: seq<Task>, s: State): nat
    requires s.pushed <= |tasks|
  {
    Sum(TaskCost, tasks[s.pushed..]) + Sum(QueuedCost(tasks), s.queue.items) + Sum(WorkerWeight(tasks), s.workers) + ProducerWeight(s.producer)
  }

  lemma ProducerStepDecreasesMeasure(tasks: seq<Task>, s: State, e: Event)
    requires Inv(tasks, s) && Enabled(tasks, s, e)
    requires e.PushNext? || e.PushRefused? || e.ProducerFails? || e.ProducerRecords? || e.ProducerCancels? || e.CloseQueue?
    ensures Apply(tasks, s, e).pushed <= |tasks| && Measure(tasks, Apply(tasks, s, e)) < Measure(tasks, s)
  {
    if e.PushNext? {
      SumFirst(TaskCost, tasks[s.pushed..]);
      assert tasks[s.pushed..][1..] == tasks[s.pushed + 1..];
      SumConcat(QueuedCost(tasks), s.queue.items, [s.pushed]);
      assert [s.pushed][..0] == [];
    }
  }

  lemma ReplicaDecreasesMeasure(tasks: seq<Task>, s: State, e: Event)
    requires Inv(tasks, s) && Enabled(tasks, s, e) && (e.ReplicaVerified? || e.ReplicaPut?)
    ensures Measure(tasks, Apply(tasks, s, e)) < Measure(tasks, s)
  {
    SumAfterUpdate(WorkerWeight(tasks), s.workers, e.worker, Apply(tasks, s, e).workers[e.worker]);
  }

  lemma WorkerStopDecreasesMeasure(tasks: seq<Task>, s: State, e: Event)
    requires Inv(tasks, s) && Enabled(tasks, s, e)
    requires e.TaskDone? || e.UploadFails? || e.WorkerRecords? || e.WorkerCancels?
    ensures Measure(tasks, Apply(tasks, s, e)) < Measure(tasks, s)
  {
    SumAfterUpdate(WorkerWeight(tasks), s.workers, e.worker, Apply(tasks, s, e).workers[e.worker]);
    assert Sum(QueuedCost(tasks), []) == 0;
  }

  lemma PopDecreasesMeasure(tasks: seq<Task>, s: State, w: nat)
    requires Inv(tasks, s) && Enabled(tasks, s, PopTask(w))
    ensures Measure(tasks, Apply(tasks, s, PopTask(w))) < Measure(tasks, s)
  {
    SumAfterUpdate(WorkerWeight(tasks), s.workers, w, Apply(tasks, s, PopTask(w)).workers[w]);
    if |s.queue.items| > 0 {
      SumFirst(QueuedCost(tasks), s.queue.items);
      assert s.queue.items[0] == s.popped;
    }
  }

  lemma StepDecreasesMeasure(tasks: seq<Task>, s: State, e: Event)
    requires Inv(tasks, s) && Enabled(tasks, s, e)
    ensures Apply(tasks, s, e).pushed <= |tasks| && Measure(tasks, Apply(tasks, s, e)) < Measure(tasks, s)
  {
    if e.PopTask? {
      PopDecreasesMeasure(tasks, s, e.worker);
    } else if e.ReplicaVerified? || e.ReplicaPut? {
      ReplicaDecreasesMeasure(tasks, s, e);
    } else if e.TaskDone? || e.UploadFails? || e.WorkerRecords? || e.WorkerCancels? {
      WorkerStopDecreasesMeasure(tasks, s, e);
    } else {
      ProducerStepDecreasesMeasure(tasks, s, e);
    }
  }

  /** Every schedule is finite, so all threads terminate. */
  lemma {:induction false} SchedulesAreBounded(tasks: seq<Task>, s: State, events: seq<Event>)
    requires Inv(tasks, s) && Schedule(tasks, s, events)
    ensures |events| <= Measure(tasks, s)
    decreases events
  {
    if events != [] {
      StepKeepsInv(tasks, s, events[0]);
      StepDecreasesMeasure(tasks, s, events[0]);
      SchedulesAreBounded(tasks, Apply(tasks, s, events[0]), events[1..]);
    }
  }

  // ---------------------------------------------------------------------------------------------
  // What a push achieves
  // ---------------------------------------------------------------------------------------------

  lemma CapacityIsNeverExceeded(tasks: seq<Task>, capacity: nat, workerCount: nat, events: seq<Event>)
    requires capacity > 0 && Schedule(tasks, Begin(tasks, capacity, workerCount), events)
    ensures |Run(tasks, Begin(tasks, capacity, workerCount), events).queue.items| <= capacity
  {
    BeginSatisfiesInv(tasks, capacity, workerCount);
    RunKeepsInv(tasks, Begin(tasks, capacity, workerCount), events);
    CapacityStays(tasks, Begin(tasks, capacity, workerCount), events);
  }

  lemma {:induction false} CapacityStays(tasks: seq<Task>, s: State, events: seq<Event>)
    requires Schedule(tasks, s, events)
    ensures Run(tasks, s, events).queue.capacity == s.queue.capacity
    decreases events
  {
    if events != [] {
      CapacityStays(tasks, Apply(tasks, s, events[0]), events[1..]);
    }
  }

  ghost predicate AllDone(tasks: seq<Task>, s: State, replicationFactor: nat) {
    && !s.queue.cancelled
    && s.popped == s.pushed == |tasks|
    && s.putRequests + s.verifiedTargets == |tasks| * replicationFactor
    && forall k, n | 0 <= k < |tasks| && n in tasks[k].desired :: (tasks[k].chunkId, n) in s.confirmed
  }

  lemma SuccessMeansDone(tasks: seq<Task>, s: State, replicationFactor: nat)
    requires Inv(tasks, s) && |s.workers| > 0 && Terminated(s) && !s.failed
    requires forall k | 0 <= k < |tasks| :: |tasks[k].desired| == replicationFactor
    ensures AllDone(tasks, s, replicationFactor)
  {
    assert s.workers[0] == Exited;
    forall k | 0 <= k < |tasks|
      ensures s.progress[k] == replicationFactor && TaskConfirmed(tasks, s, k)
    {
      assert !Handles(s.workers, k);
    }
    SumOfEqual(Identity, s.progress, replicationFactor);
  }

  /** When all threads have finished and no failure is recorded, nothing was cancelled, every task went
      through exactly once on every node desired for it, and the counters add up to all replicas. */
  lemma SuccessfulPush(tasks: seq<Task>, capacity: nat, workerCount: nat, events: seq<Event>, replicationFactor: nat)
    requires capacity > 0 && workerCount > 0 && Schedule(tasks, Begin(tasks, capacity, workerCount), events)
    requires forall k | 0 <= k < |tasks| :: |tasks[k].desired| == replicationFactor
    ensures var s := Run(tasks, Begin(tasks, capacity, workerCount), events);
            Terminated(s) && !s.failed ==> AllDone(tasks, s, replicationFactor)
  {
    BeginSatisfiesInv(tasks, capacity, workerCount);
    RunKeepsInv(tasks, Begin(tasks, capacity, workerCount), events);
    var s := Run(tasks, Begin(tasks, capacity, workerCount), events);
    if Terminated(s) && !s.failed {
      SuccessMeansDone(tasks, s, replicationFactor);
    }
  }
}
