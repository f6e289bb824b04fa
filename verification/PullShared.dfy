/** The state that the threads of a pull share (`SharedDownloadState` in src/pull/pull_engine.cpp). Each
    method is one critical section, proved to be the step of module PullWindow that it stands for,
    whatever the threads' own state. A thread that the source lets wait gets `Blocked`. */
module PullShared {
  import opened Common
  import opened PullWindow

  datatype ClaimOutcome = ClaimBlocked | Stop | Claimed(index: nat)

  datatype TakeOutcome = TakeBlocked | Failed | Taken(data: Bytes)

  /** What the threads keep for themselves: where each one is, the file, and the running object hash. */
  datatype Threads = Threads(workers: seq<Worker>, writer: Writer, file: Bytes, hashed: Bytes)

  class SharedDownloadState {
    const pull: Pull
    var nextClaimIndex: nat
    var nextWriteIndex: nat
    var ready: map<nat, Bytes>
    var failed: bool
    var cancelled: bool
    var chunksDownloaded: nat
    var bytesReceived: nat

    constructor (pull: Pull)
      ensures this.pull == pull
      ensures forall n: nat, resumed :: View(Threads(seq(n, i => Waiting), Awaiting(pull.first), resumed, resumed)) == Begin(pull, n, resumed)
    {
      this.pull := pull;
      nextClaimIndex, nextWriteIndex, ready := pull.first, pull.first, map[];
      failed, cancelled, chunksDownloaded, bytesReceived := false, false, 0, 0;
    }

    ghost function View(t: Threads): State
      reads this
    {
      State(t.workers, t.writer, nextClaimIndex, nextWriteIndex, ready, failed, cancelled, chunksDownloaded, bytesReceived, t.file, t.hashed)
    }

    /** A worker waits until there is something to claim, nothing left, or a failure. */
    method TryClaim(ghost t: Threads, ghost w: nat) returns (outcome: ClaimOutcome)
      requires IsWorker(View(t), w, Waiting)
      modifies this
      ensures outcome.ClaimBlocked? <==> !Enabled(pull, old(View(t)), Claim(w))
      ensures outcome.ClaimBlocked? ==> View(t) == old(View(t))
      ensures !outcome.ClaimBlocked? ==>
                var worker := if outcome.Claimed? then Downloading(outcome.index) else Exited;
                View(t.(workers := t.workers[w := worker])) == Apply(pull, old(View(t)), Claim(w))
    {
      if cancelled || failed || nextClaimIndex >= |pull.chunks| {
        return Stop;
      }
      if nextClaimIndex >= nextWriteIndex + pull.window {
        return ClaimBlocked;
      }
      outcome := Claimed(nextClaimIndex);
      nextClaimIndex := nextClaimIndex + 1;
    }

    method Deliver(index: nat, data: Bytes, ghost t: Threads, ghost w: nat)
      requires IsWorker(View(t), w, Downloading(index)) && Enabled(pull, View(t), Event.Deliver(w, data))
      modifies this
      ensures View(t.(workers := t.workers[w := Waiting])) == Apply(pull, old(View(t)), Event.Deliver(w, data))
    {
      ready := ready[index := data];
      chunksDownloaded := chunksDownloaded + 1;
      bytesReceived := bytesReceived + pull.chunks[index].size;
    }

    /** The writer waits until its chunk is ready or something failed. */
    method TryTake(index: nat, ghost t: Threads) returns (outcome: TakeOutcome)
      requires t.writer == Awaiting(index)
      modifies this
      ensures outcome.TakeBlocked? ==> View(t) == old(View(t)) && !Enabled(pull, old(View(t)), Take) && !Enabled(pull, old(View(t)), NoticeFailure)
      ensures outcome.Taken? ==>
                && Enabled(pull, old(View(t)), Take)
                && View(t.(writer := Writing(index, outcome.data, 0))) == Apply(pull, old(View(t)), Take)
      ensures outcome.Failed? ==>
                && Enabled(pull, old(View(t)), NoticeFailure)
                && View(t.(writer := WriterFailing)) == Apply(pull, old(View(t)), NoticeFailure)
    {
      if failed || cancelled {
        return Failed;
      }
      if index !in ready {
        return TakeBlocked;
      }
      outcome := Taken(ready[index]);
      ready := ready - {index};
    }

    /** The writer has written chunk `index` and hashed it. */
    method AdvanceTo(index: nat, ghost t: Threads)
      requires t.writer.Writing? && t.writer.index == index && Enabled(pull, View(t), Advance)
      modifies this
      ensures var next := if index + 1 < |pull.chunks| then Awaiting(index + 1) else Stopping;
              View(t.(writer := next, hashed := t.hashed + t.writer.data)) == Apply(pull, old(View(t)), Advance)
    {
      nextWriteIndex := index + 1;
    }

    method RecordFailure(ghost t: Threads, ghost w: nat)
      requires IsWorker(View(t), w, Failing)
      modifies this
      ensures View(t.(workers := t.workers[w := Cancelling])) == Apply(pull, old(View(t)), Event.RecordFailure(w))
    {
      failed := true;
    }

    method CancelDownload(ghost t: Threads, ghost w: nat)
      requires IsWorker(View(t), w, Cancelling)
      modifies this
      ensures View(t.(workers := t.workers[w := Exited])) == Apply(pull, old(View(t)), Cancel(w))
    {
      cancelled := true;
    }
  }
}
