/** The counters of a running job and the throttled flushing of its progress. */
module Progress {
  import opened JobEvents

  const FLUSH_FILES := 50
  const FLUSH_SECONDS := 2

  class Meter {
    var filesCopied: nat
    var filesFailed: nat
    var filesSkipped: nat
    var filesTotal: nat
    var bytesCopied: nat
    var bytesTotal: nat
    var inflight: nat
    var sinceFlush: nat
    var lastFlush: int
    var trace: seq<Effect>   // everything the job has shown to the outside, in order

    constructor ()
      ensures filesCopied == filesFailed == filesSkipped == filesTotal == 0
      ensures bytesCopied == bytesTotal == inflight == 0 && trace == []
    {
      filesCopied, filesFailed, filesSkipped, filesTotal := 0, 0, 0, 0;
      bytesCopied, bytesTotal, inflight := 0, 0, 0;
      sinceFlush, lastFlush, trace := 0, 0, [];
    }

    ghost predicate Valid()
      reads this
    {
      filesCopied + filesFailed <= filesTotal && bytesCopied + inflight <= bytesTotal
    }

    /** Everything but the bytes in flight and the flush bookkeeping. */
    function Counters(): (nat, nat, nat, nat, nat, nat)
      reads this
    {
      (filesCopied, filesFailed, filesSkipped, filesTotal, bytesCopied, bytesTotal)
    }

    method Emit(e: Effect)
      modifies this`trace
      ensures trace == old(trace) + [e]
    {
      trace := trace + [e];
    }

    method Publish(topic: Topic, status: Status)
      modifies this`trace
      ensures trace == old(trace) +
                [Published(topic, status, filesCopied, filesFailed, bytesCopied + inflight, bytesTotal)]
    {
      Emit(Published(topic, status, filesCopied, filesFailed, bytesCopied + inflight, bytesTotal));
    }

    /** Persists and publishes progress if forced, at the fiftieth call, or if 2 s passed, and only
        then. `now` is the clock. */
    method Flush(force: bool) returns (now: int)
      requires Valid()
      modifies this`sinceFlush, this`lastFlush, this`trace
      ensures ProgressAdded(old(trace), trace)
      ensures var due := force || old(sinceFlush) + 1 >= 50 || now - old(lastFlush) >= 2;
        if due
        then trace == old(trace) +
               [WroteProgress(filesCopied, bytesCopied, filesFailed),
                Published(JobProgress, Copying, filesCopied, filesFailed, bytesCopied + inflight, bytesTotal)]
             && sinceFlush == 0 && lastFlush == now
        else trace == old(trace) && sinceFlush == old(sinceFlush) + 1 && lastFlush == old(lastFlush)
    {
      now := *;
      sinceFlush := sinceFlush + 1;
      if !force && sinceFlush < FLUSH_FILES && now - lastFlush < FLUSH_SECONDS {
        return;
      }
      sinceFlush, lastFlush := 0, now;
      Emit(WroteProgress(filesCopied, bytesCopied, filesFailed));
      Publish(JobProgress, Copying);
    }

    /** The copier's progress callback: `n` bytes of the current file are written. */
    method Report(n: nat)
      requires Valid() && bytesCopied + n <= bytesTotal
      modifies this`inflight, this`sinceFlush, this`lastFlush, this`trace
      ensures Valid() && inflight == n
      ensures ProgressAdded(old(trace), trace)
    {
      inflight := n;
      var now := Flush(false);
    }

    /** A file is safely on the destination. */
    method FileDone(size: nat)
      requires Valid() && inflight == 0 && bytesCopied + size <= bytesTotal && filesCopied + filesFailed < filesTotal
      modifies this
      ensures Valid() && inflight == 0 && ProgressAdded(old(trace), trace)
      ensures Counters() == (old(filesCopied) + 1, old(filesFailed), old(filesSkipped), old(filesTotal),
                             old(bytesCopied) + size, old(bytesTotal))
    {
      filesCopied, bytesCopied := filesCopied + 1, bytesCopied + size;
      var now := Flush(false);
    }

    /** A file failed after all its attempts. */
    method FileLost()
      requires Valid() && inflight == 0 && filesCopied + filesFailed < filesTotal
      modifies this
      ensures Valid() && inflight == 0 && ProgressAdded(old(trace), trace)
      ensures Counters() == (old(filesCopied), old(filesFailed) + 1, old(filesSkipped), old(filesTotal),
                             old(bytesCopied), old(bytesTotal))
    {
      filesFailed := filesFailed + 1;
      var now := Flush(false);
    }
  }
}
