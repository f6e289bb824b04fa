/** The sliding window of a pull: worker threads download chunks out of order, the writer thread writes
    them in order. Every step taken under the lock, every short write and every failure is one event;
    condition variables are guards (`SharedDownloadState`, `download_worker_loop` and the writer loop
    in src/pull/pull_engine.cpp). */
module PullWindow {
  import opened Common
  import opened ObjectLayouts
  import opened PullResume
  import opened Sums

  datatype Worker = Waiting | Downloading(index: nat) | Failing | Cancelling | Exited

  datatype Writer =
    | Awaiting(index: nat)
    | Writing(index: nat, data: Bytes, position: nat)
    | WriterFailing
    | Stopping
    | Done

  /** What stays the same during one pull. */
  datatype Pull = Pull(hash: Bytes -> ChunkId, chunks: seq<ChunkRef>, first: nat, window: nat)

  datatype State = State(
    workers: seq<Worker>,
    writer: Writer,
    nextClaim: nat,
    nextWrite: nat,
    ready: map<nat, Bytes>,
    failed: bool,
    cancelled: bool,
    downloaded: nat,
    received: nat,
    file: Bytes,
    hashed: Bytes)

  datatype Event =
    | Claim(worker: nat)
    | Deliver(worker: nat, data: Bytes)
    | DownloadFails(worker: nat)
    | RecordFailure(worker: nat)
    | Cancel(worker: nat)
    | Take
    | Write(count: nat)
    | Advance
    | NoticeFailure
    | WriteFails
    | WriterRecords
    | WriterCancels

  ghost predicate ValidPull(p: Pull) {
    ValidLayout(p.chunks) && p.first < |p.chunks| && p.window > 0
  }

  function Total(p: Pull): nat {
    |p.chunks|
  }

  function Begin(p: Pull, workerCount: nat, resumed: Bytes): State {
    State(seq(workerCount, i => Waiting), Awaiting(p.first), p.first, p.first, map[], false, false, 0, 0, resumed, resumed)
  }

  predicate IsWorker(s: State, w: nat, state: Worker) {
    w < |s.workers| && s.workers[w] == state
  }

  predicate IsDownloading(s: State, w: nat) {
    w < |s.workers| && s.workers[w].Downloading?
  }

  predicate IsChunk(p: Pull, i: nat, data: Bytes)
    requires i < Total(p)
  {
    |data| == p.chunks[i].size && p.hash(data) == p.chunks[i].chunkId
  }

  ghost predicate Enabled(p: Pull, s: State, e: Event) {
    match e
    case Claim(w) =>
      IsWorker(s, w, Waiting) && (s.cancelled || s.failed || s.nextClaim >= Total(p) || s.nextClaim < s.nextWrite + p.window)
    case Deliver(w, data) =>
      IsDownloading(s, w) && s.workers[w].index < Total(p) && IsChunk(p, s.workers[w].index, data)
    case DownloadFails(w) => IsDownloading(s, w)
    case RecordFailure(w) => IsWorker(s, w, Failing)
    case Cancel(w) => IsWorker(s, w, Cancelling)
    case Take => s.writer.Awaiting? && !s.failed && !s.cancelled && s.writer.index in s.ready
    case Write(count) => s.writer.Writing? && s.writer.index < Total(p) && 0 < count <= |s.writer.data| - s.writer.position
    case Advance => s.writer.Writing? && s.writer.position == |s.writer.data|
    case NoticeFailure => s.writer.Awaiting? && (s.failed || s.cancelled)
    case WriteFails => s.writer.Writing? && s.writer.position < |s.writer.data|
    case WriterRecords => s.writer.WriterFailing?
    case WriterCancels => s.writer.Stopping?
  }

  ghost function Apply(p: Pull, s: State, e: Event): State
    requires Enabled(p, s, e)
  {
    match e
    case Claim(w) =>
      if s.cancelled || s.failed || s.nextClaim >= Total(p) then s.(workers := s.workers[w := Exited])
      else s.(workers := s.workers[w := Downloading(s.nextClaim)], nextClaim := s.nextClaim + 1)
    case Deliver(w, data) =>
      var i := s.workers[w].index;
      s.(workers := s.workers[w := Waiting], ready := s.ready[i := data],
         downloaded := s.downloaded + 1, received := s.received + p.chunks[i].size)
    case DownloadFails(w) => s.(workers := s.workers[w := Failing])
    case RecordFailure(w) => s.(workers := s.workers[w := Cancelling], failed := true)
    case Cancel(w) => s.(workers := s.workers[w := Exited], cancelled := true)
    case Take =>
      var i := s.writer.index;
      s.(writer := Writing(i, s.ready[i], 0), ready := s.ready - {i})
    case Write(count) =>
      var position := s.writer.position;
      var data := s.writer.data[position..position + count];
      s.(file := Written(s.file, Offset(p.chunks, s.writer.index) + position, data),
         writer := s.writer.(position := position + count))
    case Advance =>
      var i := s.writer.index + 1;
      s.(hashed := s.hashed + s.writer.data, nextWrite := i, writer := if i < Total(p) then Awaiting(i) else Stopping)
    case NoticeFailure => s.(writer := WriterFailing)
    case WriteFails => s.(writer := WriterFailing)
    case WriterRecords => s.(writer := Stopping, failed := true)
    case WriterCancels => s.(writer := Done, cancelled := true)
  }

  // ---------------------------------------------------------------------------------------------
  // The invariant
  // ---------------------------------------------------------------------------------------------

  predicate InHand(writer: Writer, i: nat) {
    writer.Writing? && writer.index == i
  }

  ghost predicate Downloads(workers: seq<Worker>, i: nat) {
    exists w | 0 <= w < |workers| :: workers[w] == Downloading(i)
  }

  ghost predicate Troubled(s: State) {
    s.failed || s.writer.WriterFailing? || exists w | 0 <= w < |s.workers| :: s.workers[w] == Failing
  }

  ghost predicate CountersOk(p: Pull, s: State) {
    && p.first <= s.nextWrite <= s.nextClaim <= Total(p)
    && s.nextClaim <= s.nextWrite + p.window
  }

  /** Every claimed chunk that is not written yet is in exactly one place. */
  ghost predicate ClaimsOk(p: Pull, s: State) {
    && (forall i | i in s.ready :: s.nextWrite <= i < s.nextClaim && !InHand(s.writer, i) && !Downloads(s.workers, i))
    && (forall w | 0 <= w < |s.workers| && s.workers[w].Downloading? ::
          s.nextWrite <= s.workers[w].index < s.nextClaim && !InHand(s.writer, s.workers[w].index))
    && (forall v, w | 0 <= v < w < |s.workers| && s.workers[v].Downloading? :: s.workers[w] != s.workers[v])
    && (s.writer.Writing? ==> s.writer.index < s.nextClaim)
    && (Troubled(s) || forall i | s.nextWrite <= i < s.nextClaim :: i in s.ready || InHand(s.writer, i) || Downloads(s.workers, i))
  }

  ghost predicate DataOk(p: Pull, i: nat, data: Bytes)
  {
    i < Total(p) && |data| == p.chunks[i].size && p.hash(data) == p.chunks[i].chunkId
  }

  ghost predicate FileOk(p: Pull, s: State)
    requires s.nextWrite <= Total(p)
  {
    && (forall i | i in s.ready :: DataOk(p, i, s.ready[i]))
    && IsPrefix(p.hash, p.chunks, s.hashed, s.nextWrite)
    && s.hashed <= s.file
    && (match s.writer
        case Awaiting(i) => s.file == s.hashed
        case Writing(i, data, position) => DataOk(p, i, data) && position <= |data| && s.file == s.hashed + data[..position]
        case _ => !s.failed && s.nextWrite == Total(p) ==> s.file == s.hashed)
  }

  ghost predicate PhaseOk(p: Pull, s: State) {
    && (match s.writer
        case Awaiting(i) => i == s.nextWrite < Total(p)
        case Writing(i, data, position) => i == s.nextWrite < Total(p)
        case WriterFailing => true
        case Stopping => s.failed || s.nextWrite == Total(p)
        case Done => s.cancelled && (s.failed || s.nextWrite == Total(p)))
    && (s.cancelled ==> s.failed || s.writer.Done?)
    && (forall w | 0 <= w < |s.workers| :: s.workers[w] == Exited ==> s.cancelled || s.failed || s.nextClaim == Total(p))
    && (forall w | 0 <= w < |s.workers| :: s.workers[w] == Cancelling ==> s.failed)
  }

  /** A chunk has been delivered: it is written, in the writer's hands, or ready. */
  ghost predicate Delivered(p: Pull, s: State, i: nat) {
    p.first <= i < s.nextWrite || InHand(s.writer, i) || i in s.ready
  }

  ghost function DeliveredCount(p: Pull, s: State, n: nat): nat {
    if n == 0 then 0 else DeliveredCount(p, s, n - 1) + if Delivered(p, s, n - 1) then 1 else 0
  }

  ghost function DeliveredBytes(p: Pull, s: State, n: nat): nat
    requires n <= Total(p)
  {
    if n == 0 then 0 else DeliveredBytes(p, s, n - 1) + if Delivered(p, s, n - 1) then p.chunks[n - 1].size else 0
  }

  ghost predicate CountsOk(p: Pull, s: State) {
    || s.failed || s.writer.WriterFailing?
    || (s.downloaded == DeliveredCount(p, s, Total(p)) && s.received == DeliveredBytes(p, s, Total(p)))
  }

  ghost predicate Inv(p: Pull, s: State) {
    CountersOk(p, s) && ClaimsOk(p, s) && FileOk(p, s) && PhaseOk(p, s) && CountsOk(p, s)
  }

  // ---------------------------------------------------------------------------------------------
  // Every step keeps the invariant
  // ---------------------------------------------------------------------------------------------

  lemma BeginSatisfiesInv(p: Pull, workerCount: nat, resumed: Bytes)
    requires ValidPull(p) && IsPrefix(p.hash, p.chunks, resumed, p.first)
    ensures Inv(p, Begin(p, workerCount, resumed))
  {
    NothingDelivered(p, Begin(p, workerCount, resumed), Total(p));
  }

  lemma {:induction false} NothingDelivered(p: Pull, s: State, n: nat)
    requires n <= Total(p) && s.nextWrite == p.first && s.ready == map[] && !s.writer.Writing?
    ensures DeliveredCount(p, s, n) == 0 && DeliveredBytes(p, s, n) == 0
  {
    if n > 0 {
      NothingDelivered(p, s, n - 1);
    }
  }

  /** The counters do not change as long as the same chunks count as delivered. */
  lemma {:induction false} SameDelivered(p: Pull, s: State, later: State, n: nat)
    requires n <= Total(p) && forall i | 0 <= i < n :: Delivered(p, later, i) <==> Delivered(p, s, i)
    ensures DeliveredCount(p, later, n) == DeliveredCount(p, s, n) && DeliveredBytes(p, later, n) == DeliveredBytes(p, s, n)
  {
    if n > 0 {
      SameDelivered(p, s, later, n - 1);
    }
  }

  lemma {:induction false} OneMoreDelivered(p: Pull, s: State, later: State, i: nat, n: nat)
    requires n <= Total(p) && !Delivered(p, s, i) && Delivered(p, later, i)
    requires forall k | 0 <= k < n && k != i :: Delivered(p, later, k) <==> Delivered(p, s, k)
    ensures i < n ==> DeliveredCount(p, later, n) == DeliveredCount(p, s, n) + 1
                      && DeliveredBytes(p, later, n) == DeliveredBytes(p, s, n) + p.chunks[i].size
    ensures i >= n ==> DeliveredCount(p, later, n) == DeliveredCount(p, s, n) && DeliveredBytes(p, later, n) == DeliveredBytes(p, s, n)
  {
    if n > 0 {
      OneMoreDelivered(p, s, later, i, n - 1);
    }
  }

  lemma ClaimKeepsClaims(p: Pull, s: State, w: nat)
    requires CountersOk(p, s) && ClaimsOk(p, s) && PhaseOk(p, s) && Enabled(p, s, Claim(w))
    ensures ClaimsOk(p, Apply(p, s, Claim(w)))
  {
    var later := Apply(p, s, Claim(w));
    assert forall v | 0 <= v < |s.workers| && v != w :: later.workers[v] == s.workers[v];
    if !(s.cancelled || s.failed || s.nextClaim >= Total(p)) {
      assert later.workers[w] == Downloading(s.nextClaim);
    }
    assert forall i :: Downloads(s.workers, i) ==> Downloads(later.workers, i);
  }

  lemma ClaimKeepsInv(p: Pull, s: State, w: nat)
    requires ValidPull(p) && Inv(p, s) && Enabled(p, s, Claim(w))
    ensures Inv(p, Apply(p, s, Claim(w)))
  {
    ClaimKeepsClaims(p, s, w);
    SameDelivered(p, s, Apply(p, s, Claim(w)), Total(p));
  }

  lemma DeliverKeepsClaims(p: Pull, s: State, w: nat, data: Bytes)
    requires CountersOk(p, s) && ClaimsOk(p, s) && Enabled(p, s, Deliver(w, data))
    ensures ClaimsOk(p, Apply(p, s, Deliver(w, data)))
  {
    var i := s.workers[w].index;
    var later := Apply(p, s, Deliver(w, data));
    assert forall v | 0 <= v < |s.workers| && v != w :: later.workers[v] == s.workers[v];
    assert forall k | k != i :: Downloads(s.workers, k) ==> Downloads(later.workers, k);
  }

  lemma DeliverKeepsInv(p: Pull, s: State, w: nat, data: Bytes)
    requires ValidPull(p) && Inv(p, s) && Enabled(p, s, Deliver(w, data))
    ensures Inv(p, Apply(p, s, Deliver(w, data)))
  {
    assert s.workers[w] == Downloading(s.workers[w].index);
    DeliverKeepsClaims(p, s, w, data);
    OneMoreDelivered(p, s, Apply(p, s, Deliver(w, data)), s.workers[w].index, Total(p));
  }

  lemma FailureKeepsInv(p: Pull, s: State, e: Event)
    requires ValidPull(p) && Inv(p, s) && Enabled(p, s, e)
    requires e.DownloadFails? || e.RecordFailure? || e.Cancel?
    ensures Inv(p, Apply(p, s, e))
  {
    var later := Apply(p, s, e);
    SameDelivered(p, s, later, Total(p));
    assert forall v | 0 <= v < |s.workers| && v != e.worker :: later.workers[v] == s.workers[v];
    assert later.workers[e.worker] == if e.DownloadFails? then Failing else if e.RecordFailure? then Cancelling else Exited;
  }

  lemma TakeKeepsInv(p: Pull, s: State)
    requires ValidPull(p) && Inv(p, s) && Enabled(p, s, Take)
    ensures Inv(p, Apply(p, s, Take))
  {
    SameDelivered(p, s, Apply(p, s, Take), Total(p));
  }

  lemma WriteAppends(file: Bytes, hashed: Bytes, data: Bytes, position: nat, count: nat)
    requires position + count <= |data| && file == hashed + data[..position]
    ensures Written(file, |hashed| + position, data[position..position + count]) == hashed + data[..position + count]
  {
    assert data[..position + count] == data[..position] + data[position..position + count];
  }

  lemma WriteKeepsFile(p: Pull, s: State, count: nat)
    requires CountersOk(p, s) && FileOk(p, s) && PhaseOk(p, s) && Enabled(p, s, Write(count))
    ensures FileOk(p, Apply(p, s, Write(count)))
  {
    WriteAppends(s.file, s.hashed, s.writer.data, s.writer.position, count);
  }

  lemma WriteKeepsInv(p: Pull, s: State, count: nat)
    requires ValidPull(p) && Inv(p, s) && Enabled(p, s, Write(count))
    ensures Inv(p, Apply(p, s, Write(count)))
  {
    WriteKeepsFile(p, s, count);
    SameDelivered(p, s, Apply(p, s, Write(count)), Total(p));
  }

  lemma AdvanceKeepsInv(p: Pull, s: State)
    requires ValidPull(p) && Inv(p, s) && Enabled(p, s, Advance)
    ensures Inv(p, Apply(p, s, Advance))
  {
    var later := Apply(p, s, Advance);
    SameDelivered(p, s, later, Total(p));
    PrefixExtends(p.hash, p.chunks, s.hashed, s.nextWrite, s.writer.data);
    assert s.writer.data[..s.writer.position] == s.writer.data;
  }

  lemma WriterStopsKeepsInv(p: Pull, s: State, e: Event)
    requires ValidPull(p) && Inv(p, s) && Enabled(p, s, e)
    requires e.NoticeFailure? || e.WriteFails? || e.WriterRecords? || e.WriterCancels?
    ensures Inv(p, Apply(p, s, e))
  {
    if e.WriterCancels? {
      SameDelivered(p, s, Apply(p, s, e), Total(p));
    }
  }

  lemma StepKeepsInv(p: Pull, s: State, e: Event)
    requires ValidPull(p) && Inv(p, s) && Enabled(p, s, e)
    ensures Inv(p, Apply(p, s, e))
  {
    match e {
      case Claim(w) => ClaimKeepsInv(p, s, w);
      case Deliver(w, data) => DeliverKeepsInv(p, s, w, data);
      case Take => TakeKeepsInv(p, s);
      case Write(count) => WriteKeepsInv(p, s, count);
      case Advance => AdvanceKeepsInv(p, s);
      case DownloadFails(_) => FailureKeepsInv(p, s, e);
      case RecordFailure(_) => FailureKeepsInv(p, s, e);
      case Cancel(_) => FailureKeepsInv(p, s, e);
      case _ => WriterStopsKeepsInv(p, s, e);
    }
  }

  /** `events` can happen one after the other, starting in `s`. */
  ghost predicate Schedule(p: Pull, s: State, events: seq<Event>)
    decreases events
  {
    events != [] ==> Enabled(p, s, events[0]) && Schedule(p, Apply(p, s, events[0]), events[1..])
  }

  ghost function Run(p: Pull, s: State, events: seq<Event>): State
    requires Schedule(p, s, events)
    decreases events
  {
    if events == [] then s else Run(p, Apply(p, s, events[0]), events[1..])
  }

  lemma {:induction false} RunKeepsInv(p: Pull, s: State, events: seq<Event>)
    requires ValidPull(p) && Inv(p, s) && Schedule(p, s, events)
    ensures Inv(p, Run(p, s, events))
    decreases events
  {
    if events != [] {
      StepKeepsInv(p, s, events[0]);
      RunKeepsInv(p, Apply(p, s, events[0]), events[1..]);
    }
  }

  // ---------------------------------------------------------------------------------------------
  // Progress and termination
  // ---------------------------------------------------------------------------------------------

  ghost predicate Terminated(s: State) {
    s.writer.Done? && forall w | 0 <= w < |s.workers| :: s.workers[w] == Exited
  }

  /** The writer waits for the very chunk that worker `w` is downloading, or has stopped already. */
  ghost predicate OnlyDownloadLeft(s: State, w: nat) {
    && IsDownloading(s, w)
    && (s.writer.Done? || (s.writer == Awaiting(s.workers[w].index) && s.writer.index !in s.ready))
  }

  /** No deadlock: with at least one worker, until all threads have finished, some thread can take a step
      that is no failure, or else a download is in progress whose chunk the writer waits for (or no
      longer does, as it has stopped); that download ends with the right bytes or fails. */
  lemma SomeThreadCanStep(p: Pull, s: State) returns (e: Event)
    requires ValidPull(p) && Inv(p, s) && |s.workers| > 0 && !Terminated(s)
    ensures Enabled(p, s, e) && !e.WriteFails?
    ensures e.DownloadFails? ==>
              && OnlyDownloadLeft(s, e.worker)
              && s.workers[e.worker].index < Total(p)
              && forall data: Bytes :: IsChunk(p, s.workers[e.worker].index, data) ==> Enabled(p, s, Deliver(e.worker, data))
  {
    match s.writer {
      case Awaiting(i) =>
        if s.failed || s.cancelled {
          return NoticeFailure;
        } else if i in s.ready {
          return Take;
        } else {
          e := SomeWorkerCanStep(p, s);
        }
      case Writing(i, data, position) =>
        return if position < |data| then Write(1) else Advance;
      case WriterFailing => return WriterRecords;
      case Stopping => return WriterCancels;
      case Done =>
        var w :| 0 <= w < |s.workers| && s.workers[w] != Exited;
        return WorkerEvent(s, w);
    }
  }

  function WorkerEvent(s: State, w: nat): Event
    requires w < |s.workers|
  {
    match s.workers[w]
    case Downloading(_) => DownloadFails(w)
    case Failing => RecordFailure(w)
    case Cancelling => Cancel(w)
    case _ => Claim(w)
  }

  /** While the writer waits for a chunk that is not ready, it can still be claimed or is on its way. */
  lemma SomeWorkerCanStep(p: Pull, s: State) returns (e: Event)
    requires ValidPull(p) && Inv(p, s) && |s.workers| > 0
    requires s.writer.Awaiting? && !s.failed && !s.cancelled && s.writer.index !in s.ready
    ensures Enabled(p, s, e) && !e.WriteFails?
    ensures e.DownloadFails? ==> OnlyDownloadLeft(s, e.worker)
  {
    if w :| 0 <= w < |s.workers| && s.workers[w] == Failing {
      return RecordFailure(w);
    } else if s.nextWrite < s.nextClaim {
      assert Downloads(s.workers, s.nextWrite);
      var w :| 0 <= w < |s.workers| && s.workers[w] == Downloading(s.nextWrite);
      return DownloadFails(w);
    } else {
      return WorkerEvent(s, 0);
    }
  }

  function WorkerWeight(worker: Worker): nat {
    match worker
    case Waiting => 1
    case Downloading(_) => 3
    case Failing => 2
    case Cancelling => 1
    case Exited => 0
  }

  /** How much the writer still has to do. */
  ghost function WriterWeight(p: Pull, s: State): int {
    match s.writer
    case Awaiting(i) => if i <= Total(p) then TotalSize(p.chunks) - Offset(p.chunks, i) + 2 * (Total(p) - i) + 2 else 0
    case Writing(i, data, position) =>
      if i <= Total(p) then TotalSize(p.chunks) - Offset(p.chunks, i) - position + 2 * (Total(p) - i) + 1 else 0
    case WriterFailing => 2
    case Stopping => 1
    case Done => 0
  }

  ghost function Measure(p: Pull, s: State): int {
    3 * (Total(p) - s.nextClaim) + Sum(WorkerWeight, s.workers) + WriterWeight(p, s)
  }

  lemma MeasureIsNatural(p: Pull, s: State)
    requires ValidPull(p) && Inv(p, s)
    ensures Measure(p, s) >= 0
  {
    OffsetMonotonic(p.chunks, s.nextWrite, Total(p));
    if s.writer.Writing? {
      OffsetMonotonic(p.chunks, s.nextWrite + 1, Total(p));
    }
  }

  lemma WorkerStepDecreasesMeasure(p: Pull, s: State, e: Event)
    requires Inv(p, s) && Enabled(p, s, e)
    requires e.Claim? || e.Deliver? || e.DownloadFails? || e.RecordFailure? || e.Cancel?
    ensures Measure(p, Apply(p, s, e)) < Measure(p, s)
  {
    var later := Apply(p, s, e);
    SumAfterUpdate(WorkerWeight, s.workers, e.worker, later.workers[e.worker]);
    assert later.workers == s.workers[e.worker := later.workers[e.worker]];
    assert WriterWeight(p, later) == WriterWeight(p, s);
  }

  lemma WriterStepDecreasesMeasure(p: Pull, s: State, e: Event)
    requires CountersOk(p, s) && FileOk(p, s) && PhaseOk(p, s) && Enabled(p, s, e)
    requires e.Take? || e.Write? || e.Advance? || e.NoticeFailure? || e.WriteFails? || e.WriterRecords? || e.WriterCancels?
    ensures WriterWeight(p, Apply(p, s, e)) < WriterWeight(p, s)
  {
    OffsetMonotonic(p.chunks, s.nextWrite, Total(p));
    if s.writer.Writing? {
      OffsetMonotonic(p.chunks, s.nextWrite + 1, Total(p));
    }
  }

  lemma StepDecreasesMeasure(p: Pull, s: State, e: Event)
    requires Inv(p, s) && Enabled(p, s, e)
    ensures Measure(p, Apply(p, s, e)) < Measure(p, s)
  {
    if e.Claim? || e.Deliver? || e.DownloadFails? || e.RecordFailure? || e.Cancel? {
      WorkerStepDecreasesMeasure(p, s, e);
    } else {
      WriterStepDecreasesMeasure(p, s, e);
    }
  }

  /** Every schedule is finite: threads take no more steps in all than the measure allows. */
  lemma {:induction false} SchedulesAreBounded(p: Pull, s: State, events: seq<Event>)
    requires ValidPull(p) && Inv(p, s) && Schedule(p, s, events)
    ensures |events| <= Measure(p, s)
    decreases events
  {
    MeasureIsNatural(p, s);
    if events != [] {
      StepKeepsInv(p, s, events[0]);
      StepDecreasesMeasure(p, s, events[0]);
      SchedulesAreBounded(p, Apply(p, s, events[0]), events[1..]);
    }
  }

  // ---------------------------------------------------------------------------------------------
  // What a pull achieves
  // ---------------------------------------------------------------------------------------------

  /** At no time are more chunks claimed and not yet written than the window allows; chunks wait in
      memory only between claim and write; and the file always starts with the chunks written so far. */
  lemma WindowIsNeverExceeded(p: Pull, workerCount: nat, resumed: Bytes, events: seq<Event>)
    requires ValidPull(p) && IsPrefix(p.hash, p.chunks, resumed, p.first)
    requires Schedule(p, Begin(p, workerCount, resumed), events)
    ensures var s := Run(p, Begin(p, workerCount, resumed), events);
            && s.nextWrite <= s.nextClaim <= s.nextWrite + p.window
            && (forall i | i in s.ready :: s.nextWrite <= i < s.nextClaim)
            && s.nextWrite <= Total(p) && IsPrefix(p.hash, p.chunks, s.hashed, s.nextWrite) && s.hashed <= s.file
  {
    BeginSatisfiesInv(p, workerCount, resumed);
    RunKeepsInv(p, Begin(p, workerCount, resumed), events);
  }

  lemma {:induction false} AllDelivered(p: Pull, s: State, n: nat)
    requires p.first <= n <= Total(p) && s.nextWrite == Total(p) && s.ready == map[] && !s.writer.Writing?
    ensures DeliveredCount(p, s, n) == n - p.first
    ensures DeliveredBytes(p, s, n) == Offset(p.chunks, n) - Offset(p.chunks, p.first)
  {
    if n > p.first {
      AllDelivered(p, s, n - 1);
    } else {
      NoneBeforeFirst(p, s, n);
    }
  }

  lemma {:induction false} NoneBeforeFirst(p: Pull, s: State, n: nat)
    requires n <= p.first <= Total(p) && s.ready == map[] && !s.writer.Writing?
    ensures DeliveredCount(p, s, n) == 0 && DeliveredBytes(p, s, n) == 0
  {
    if n > 0 {
      NoneBeforeFirst(p, s, n - 1);
    }
  }

  /** When all threads have finished and no failure is recorded, the file is exactly the concatenation
      of the layout's chunks, and the counters account for every chunk that was not reused. */
  lemma SuccessfulPull(p: Pull, workerCount: nat, resumed: Bytes, events: seq<Event>)
    requires ValidPull(p) && IsPrefix(p.hash, p.chunks, resumed, p.first)
    requires Schedule(p, Begin(p, workerCount, resumed), events)
    ensures var s := Run(p, Begin(p, workerCount, resumed), events);
            Terminated(s) && !s.failed ==>
              && IsPrefix(p.hash, p.chunks, s.file, Total(p))
              && |s.file| == TotalSize(p.chunks)
              && s.hashed == s.file
              && s.downloaded + p.first == Total(p)
              && s.received == TotalSize(p.chunks) - Offset(p.chunks, p.first)
  {
    BeginSatisfiesInv(p, workerCount, resumed);
    RunKeepsInv(p, Begin(p, workerCount, resumed), events);
    var s := Run(p, Begin(p, workerCount, resumed), events);
    if Terminated(s) && !s.failed {
      assert s.ready == map[];
      AllDelivered(p, s, Total(p));
    }
  }

  ghost predicate Untroubled(s: State) {
    !s.failed && !s.writer.WriterFailing? && forall w | 0 <= w < |s.workers| :: s.workers[w] != Failing && s.workers[w] != Cancelling
  }

  lemma StepStaysUntroubled(p: Pull, s: State, e: Event)
    requires Inv(p, s) && Enabled(p, s, e) && Untroubled(s) && !e.DownloadFails? && !e.WriteFails?
    ensures Untroubled(Apply(p, s, e))
  {
  }

  /** A pull fails only if a download or a write fails: without such an event, whatever the schedule,
      it ends in success. */
  lemma {:induction false} OnlyFailuresFail(p: Pull, s: State, events: seq<Event>)
    requires ValidPull(p) && Inv(p, s) && Untroubled(s) && Schedule(p, s, events)
    requires forall i | 0 <= i < |events| :: !events[i].DownloadFails? && !events[i].WriteFails?
    ensures Untroubled(Run(p, s, events))
    decreases events
  {
    if events != [] {
      StepKeepsInv(p, s, events[0]);
      StepStaysUntroubled(p, s, events[0]);
      OnlyFailuresFail(p, Apply(p, s, events[0]), events[1..]);
    }
  }
}
