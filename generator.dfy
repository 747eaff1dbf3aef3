/**
 * The workload engine (cmd/generator/generator.go): one write worker mints
 * relationship tuples, writes them through the client and, on success, fans
 * each out into a bounded FIFO of read tasks; `ReadRatio` read workers drain
 * the FIFO, check a permission for each task and classify the outcome.
 *
 * The goroutines become a sequential model: every iteration of a worker loop
 * is one atomic step (`WriteStep`, `ReadStep`) on a `Workload` object, and the
 * steps may be called in any order. The wall-clock deadline is "no more steps".
 * The random draws of the tuple generator and the client's outcomes are
 * parameters of the steps.
 */
module Generator {
  import opened Wrappers
  import Authzed

  /** The capacity of the buffered channel of read tasks. */
  const Capacity := 10000
  const WriteWorkers := 1
  const ObjectType := "document"
  const SubjectType := "user"
  const ObjectIdPrefix := "doc_"
  /** The values the fake-data generator draws relations and permissions from. */
  const Relations: set<string> := {"editor", "viewer", "admin"}
  const Permissions: set<string> := {"view", "edit", "remove"}

  /** A read task: the relationship tuple that a successful write produced. */
  datatype ChannelTuple = ChannelTuple(subjectType: string, subjectID: string, relation: string,
                                       objectType: string, objectID: string)

  /** The shape every tuple the write worker mints has. */
  predicate WellFormed(t: ChannelTuple)
  {
    && t.objectType == ObjectType
    && t.subjectType == SubjectType
    && ObjectIdPrefix <= t.objectID
    && t.relation in Relations
  }

  // ---------------------------------------------------------------------------
  // Worker counts and fan-out
  // ---------------------------------------------------------------------------

  /** The worker counts logged at the start of a run, and how many read goroutines are started. */
  datatype Workers = Workers(writers: int, readers: int, total: int, readersStarted: nat)

  function WorkerCounts(readRatio: int): (w: Workers)
    ensures w.writers == WriteWorkers && w.readers == readRatio
    ensures w.total == w.writers + w.readers
    ensures w.readersStarted == 0 <==> readRatio <= 0
    ensures readRatio >= 0 ==> w.readersStarted == readRatio && w.total == WriteWorkers + w.readersStarted
  {
    Workers(WriteWorkers, readRatio, WriteWorkers + readRatio, if readRatio > 0 then readRatio else 0)
  }

  /** How many copies of a tuple the `for j < ReadRatio` loop pushes. */
  function Fanout(readRatio: int): (n: nat)
    ensures readRatio > 0 ==> n == readRatio
    ensures readRatio <= 0 ==> n == 0
  {
    if readRatio > 0 then readRatio else 0
  }

  /** With a ratio of zero or less, no read worker is started and no write enqueues anything. */
  lemma NoReadersWithoutRatio(readRatio: int)
    requires readRatio <= 0
    ensures WorkerCounts(readRatio).readersStarted == 0
    ensures Fanout(readRatio) == 0
    ensures forall t: ChannelTuple :: Repeat(t, Fanout(readRatio)) == []
  {
  }

  /** `n` copies of `t`. */
  function Repeat(t: ChannelTuple, n: nat): (r: seq<ChannelTuple>)
    ensures |r| == n
    ensures forall i :: 0 <= i < n ==> r[i] == t
  {
    if n == 0 then [] else Repeat(t, n - 1) + [t]
  }

  /** The read tasks produced by the successful writes `written`, in order: `n` copies of each. */
  function Expand(written: seq<ChannelTuple>, n: nat): seq<ChannelTuple>
  {
    if written == [] then [] else Expand(written[..|written| - 1], n) + Repeat(written[|written| - 1], n)
  }

  lemma {:induction false} ExpandLength(written: seq<ChannelTuple>, n: nat)
    ensures |Expand(written, n)| == |written| * n
  {
    if written != [] {
      ExpandLength(written[..|written| - 1], n);
      calc {
        |Expand(written, n)|;
        (|written| - 1) * n + n;
        |written| * n;
      }
    }
  }

  /** No task is fabricated: every produced task is a tuple that was written. */
  lemma {:induction false} ExpandElements(written: seq<ChannelTuple>, n: nat)
    ensures forall x :: x in Expand(written, n) ==> x in written
  {
    if written != [] {
      var front := written[..|written| - 1];
      ExpandElements(front, n);
      forall x | x in Expand(written, n) ensures x in written {
        if x in Expand(front, n) {
          assert x in front;
          assert front <= written;
        } else {
          assert x in Repeat(written[|written| - 1], n);
        }
      }
    }
  }

  lemma ExpandSnoc(written: seq<ChannelTuple>, t: ChannelTuple, n: nat)
    ensures Expand(written + [t], n) == Expand(written, n) + Repeat(t, n)
  {
    assert (written + [t])[..|written + [t]| - 1] == written;
  }

  // ---------------------------------------------------------------------------
  // Read classification and the run summary
  // ---------------------------------------------------------------------------

  /** By how much a processed read task moves the allowed, denied and failed-read counters. */
  datatype Tally = Tally(allowed: nat, denied: nat, failed: nat)

  /**
   * The read worker's classification of a check result: `allowed` counts a
   * grant, `denied` counts a refusal without error, and `failed` counts an
   * error. For a result whose error carries `allowed = false`, as every
   * client error does, exactly one counter moves.
   */
  function Classify(allowed: bool, err: Option<Authzed.Error>): (r: Tally)
    ensures r.allowed == 1 <==> allowed
    ensures r.denied == 1 <==> !allowed && err.None?
    ensures r.failed == 1 <==> err.Some?
    ensures r.allowed <= 1 && r.denied <= 1 && r.failed <= 1
    ensures (err.Some? ==> !allowed) ==> r.allowed + r.denied + r.failed == 1
  {
    Tally(if allowed then 1 else 0, if !allowed && err.None? then 1 else 0, if err.Some? then 1 else 0)
  }

  /** Every reply the client can return is classified into exactly one outcome. */
  lemma ClientRepliesClassifyOnce(setup: Authzed.Setup, attempts: seq<Authzed.Attempt>)
    requires |attempts| == Authzed.MaxAttempts
    ensures var reply := Authzed.CheckOutcome(setup, attempts);
      var t := Classify(reply.allowed, reply.err);
      t.allowed + t.denied + t.failed == 1
  {
  }

  /** The achieved read/write ratio, reported only when at least one write succeeded. */
  function ReadWriteRatio(readCount: nat, writeCount: nat): (r: Option<real>)
    ensures r.Some? <==> writeCount > 0
    ensures r.Some? ==> r.value * writeCount as real == readCount as real
  {
    if writeCount > 0 then Some(readCount as real / writeCount as real) else None
  }

  // ---------------------------------------------------------------------------
  // The workload state
  // ---------------------------------------------------------------------------

  class Workload {
    const dryRun: bool
    const readRatio: int
    /** The dereferenced API endpoint the client posts to. */
    const api: string

    /** The read tasks in the channel, oldest first. */
    var queue: seq<ChannelTuple>
    var allowedCount: nat
    var deniedCount: nat
    var failedReads: nat
    var failedWrites: nat
    var readCount: nat
    var writeCount: nat

    /** The tuples of the successful writes, in write order. */
    ghost var written: seq<ChannelTuple>
    /** The tasks read workers have taken from the channel, in dequeue order. */
    ghost var dequeued: seq<ChannelTuple>

    ghost predicate Valid()
      reads this
    {
      && |queue| <= Capacity
      && dequeued + queue == Expand(written, Fanout(readRatio))
      && writeCount == |written|
      && readCount == |dequeued|
      && (forall i :: 0 <= i < |written| ==> WellFormed(written[i]))
      && allowedCount + deniedCount + failedReads == readCount
      && (dryRun ==> written == [] && dequeued == [] && queue == [] && failedWrites == 0)
    }

    /** The state at the start of a run: an empty channel and all six counters zero. */
    constructor (dryRun: bool, readRatio: int, api: string)
      ensures Valid()
      ensures this.dryRun == dryRun && this.readRatio == readRatio && this.api == api
      ensures queue == [] && written == [] && dequeued == []
      ensures allowedCount == 0 && deniedCount == 0 && failedReads == 0
      ensures failedWrites == 0 && readCount == 0 && writeCount == 0
    {
      this.dryRun, this.readRatio, this.api := dryRun, readRatio, api;
      queue, written, dequeued := [], [], [];
      allowedCount, deniedCount, failedReads := 0, 0, 0;
      failedWrites, readCount, writeCount := 0, 0, 0;
    }

    /**
     * One iteration of the write worker. The generator's draws are
     * `subjectID`, `relation` and `uuid`; `setup` and `outcome` are what the
     * client's single write attempt meets. In live mode a failed write bumps
     * `failedWrites`; a successful one pushes `ReadRatio` copies of the tuple
     * and then bumps `writeCount`. In dry-run mode nothing changes.
     * `posted` is the request sent to the service: the touch of the minted
     * tuple, or none in dry-run mode (no call is made) or when it was not built.
     *
     * The channel send blocks when the channel is full; the model only takes
     * the step when there is room for the whole fan-out.
     */
    method WriteStep(subjectID: string, relation: string, uuid: string, setup: Authzed.Setup, outcome: Authzed.Attempt)
      returns (posted: Option<Authzed.Post<Authzed.WriteRequest>>)
      requires Valid()
      requires relation in Relations
      requires !dryRun && Authzed.WriteTuple(api, ObjectType, ObjectIdPrefix + uuid, relation, SubjectType, subjectID, setup, outcome).err.None?
               ==> |queue| + Fanout(readRatio) <= Capacity
      modifies this
      ensures Valid()
      ensures var t := ChannelTuple(SubjectType, subjectID, relation, ObjectType, ObjectIdPrefix + uuid);
        var ok := Authzed.WriteTuple(api, ObjectType, ObjectIdPrefix + uuid, relation, SubjectType, subjectID, setup, outcome).err.None?;
        && queue == (if !dryRun && ok then old(queue) + Repeat(t, Fanout(readRatio)) else old(queue))
        && written == (if !dryRun && ok then old(written) + [t] else old(written))
        && writeCount == old(writeCount) + (if !dryRun && ok then 1 else 0)
        && failedWrites == old(failedWrites) + (if !dryRun && !ok then 1 else 0)
      ensures dequeued == old(dequeued)
      ensures allowedCount == old(allowedCount) && deniedCount == old(deniedCount)
      ensures failedReads == old(failedReads) && readCount == old(readCount)
      ensures dryRun || setup != Authzed.Ready ==> posted == None
      ensures !dryRun && setup == Authzed.Ready ==>
        posted == Some(Authzed.Post(api + Authzed.WritePath,
                                    Authzed.NewWriteRequest(ObjectType, ObjectIdPrefix + uuid, relation, SubjectType, subjectID)))
    {
      var objectType := ObjectType;
      var objectID := ObjectIdPrefix + uuid;
      var subjectType := SubjectType;
      posted := None;
      if !dryRun {
        var result := Authzed.WriteTuple(api, objectType, objectID, relation, subjectType, subjectID, setup, outcome);
        posted := result.posted;
        if result.err.Some? {
          failedWrites := failedWrites + 1;
        } else {
          var t := ChannelTuple(subjectType, subjectID, relation, objectType, objectID);
          var j := 0;
          while j < readRatio
            invariant 0 <= j <= Fanout(readRatio)
            invariant queue == old(queue) + Repeat(t, j)
            modifies this`queue
          {
            queue := queue + [t];
            j := j + 1;
          }
          ExpandSnoc(written, t, Fanout(readRatio));
          written := written + [t];
          writeCount := writeCount + 1;
        }
      }
    }

    /**
     * One iteration of a read worker (there is one only when the ratio is
     * positive). On an empty channel the worker idles and nothing changes.
     * Otherwise it takes the head task; in live mode it checks a permission
     * drawn by the generator (`permission`), the client seeing `setup` and
     * `attempts`; then it classifies the result and bumps `readCount`. In
     * dry-run mode no call is made and the result is `(false, nil)`.
     * `posted` is the check sent for the head task and the drawn permission,
     * or none when the worker idled, in dry-run mode, or when it was not built.
     */
    method ReadStep(permission: string, setup: Authzed.Setup, attempts: seq<Authzed.Attempt>)
      returns (posted: Option<Authzed.Post<Authzed.CheckRequest>>)
      requires Valid()
      requires readRatio > 0
      requires permission in Permissions
      requires |attempts| == Authzed.MaxAttempts
      modifies this
      ensures Valid()
      ensures old(queue) == [] ==>
        && queue == [] && dequeued == old(dequeued)
        && allowedCount == old(allowedCount) && deniedCount == old(deniedCount)
        && failedReads == old(failedReads) && readCount == old(readCount)
      ensures old(queue) != [] ==>
        var reply := if dryRun then Authzed.CheckReply(false, None) else Authzed.CheckOutcome(setup, attempts);
        var tally := Classify(reply.allowed, reply.err);
        && queue == old(queue)[1..]
        && dequeued == old(dequeued) + [old(queue)[0]]
        && readCount == old(readCount) + 1
        && allowedCount == old(allowedCount) + tally.allowed
        && deniedCount == old(deniedCount) + tally.denied
        && failedReads == old(failedReads) + tally.failed
      ensures written == old(written) && writeCount == old(writeCount) && failedWrites == old(failedWrites)
      ensures dryRun || old(queue) == [] || setup != Authzed.Ready ==> posted == None
      ensures !dryRun && old(queue) != [] && setup == Authzed.Ready ==>
        var h := old(queue)[0];
        posted == Some(Authzed.Post(api + Authzed.CheckPath,
                                    Authzed.NewCheckRequest(h.objectType, h.objectID, permission, h.subjectType, h.subjectID)))
    {
      posted := None;
      if queue != [] {
        var t := queue[0];
        assert queue == [t] + queue[1..];
        queue := queue[1..];
        dequeued := dequeued + [t];
        assert dequeued + queue == old(dequeued) + old(queue);
        var allowed := false;
        var err: Option<Authzed.Error> := None;
        if !dryRun {
          var reply, sent, _, _ := Authzed.CheckPermission(api, t.objectType, t.objectID, permission, t.subjectType, t.subjectID, setup, attempts);
          allowed, err, posted := reply.allowed, reply.err, sent;
        }
        var tally := Classify(allowed, err);
        allowedCount := allowedCount + tally.allowed;
        deniedCount := deniedCount + tally.denied;
        failedReads := failedReads + tally.failed;
        readCount := readCount + 1;
      }
    }
  }

  // ---------------------------------------------------------------------------
  // What holds between any two steps
  // ---------------------------------------------------------------------------

  /** Each successful write produced `Fanout` tasks; each is either still queued or was read. */
  lemma Conservation(w: Workload)
    requires w.Valid()
    ensures |w.queue| + w.readCount == w.writeCount * Fanout(w.readRatio)
    ensures w.readCount <= w.writeCount * Fanout(w.readRatio)
  {
    ExpandLength(w.written, Fanout(w.readRatio));
    assert |w.dequeued + w.queue| == |w.dequeued| + |w.queue|;
  }

  /** Every queued task is a tuple some successful write produced, so it has the minted shape. */
  lemma QueueWellFormed(w: Workload)
    requires w.Valid()
    ensures forall i :: 0 <= i < |w.queue| ==> w.queue[i] in w.written && WellFormed(w.queue[i])
  {
    ExpandElements(w.written, Fanout(w.readRatio));
    forall i | 0 <= i < |w.queue| ensures w.queue[i] in w.written {
      assert w.queue[i] == (w.dequeued + w.queue)[|w.dequeued| + i];
    }
  }

  /** Every processed task is counted exactly once as allowed, denied or failed. */
  lemma ReadsPartitioned(w: Workload)
    requires w.Valid()
    ensures w.allowedCount + w.deniedCount + w.failedReads == w.readCount
    ensures w.allowedCount <= w.readCount && w.deniedCount <= w.readCount && w.failedReads <= w.readCount
  {
  }

  /** In dry-run mode the channel stays empty and all six counters stay zero. */
  lemma DryRunIsSilent(w: Workload)
    requires w.Valid() && w.dryRun
    ensures w.queue == []
    ensures w.allowedCount == 0 && w.deniedCount == 0 && w.failedReads == 0
    ensures w.failedWrites == 0 && w.readCount == 0 && w.writeCount == 0
  {
  }
}
