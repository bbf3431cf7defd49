/** All that is proved of every reachable pool, as one invariant. */
module Http2PoolInvariant {
  import opened Bytes
  import opened BufferBudget
  import opened Http2Queue
  import opened Http2Pool
  import opened Http2PoolRuns
  import opened Http2PoolLinks
  import opened Http2PoolReceive
  import opened Http2PoolFlow
  import opened Http2PoolSend
  import opened Http2PoolOwnership
  import opened Http2PoolUpload

  /** Memory, links, both directions of flow control, ownership, and the octets in order. */
  predicate Consistent(p: Pool)
    ensures Consistent(p) ==> Memory(p)
  {
    Sound(p) && Sends(p) && Owned(p) && Carried(p)
  }

  lemma ConsistentNext(p: Pool, step: Step)
    requires Consistent(p)
    ensures Consistent(Next(p, step))
  {
    hide Memory, Links, GroupsExist, Receives, Sends, Owned, Carried, Next, SendsWithin;
    LinksNext(p, step);
    ReceivesNext(p, step);
    SendsNext(p, step);
    OwnedNext(p, step);
    CarriedNext(p, step);
  }

  lemma {:induction false} ConsistentSteps(p: Pool, steps: seq<Step>)
    requires Consistent(p)
    ensures Consistent(Run(p, steps))
    decreases |steps|
  {
    hide Consistent, Next;
    if steps != [] {
      ConsistentSteps(p, steps[..|steps| - 1]);
      ConsistentNext(Run(p, steps[..|steps| - 1]), steps[|steps| - 1]);
    }
  }

  /** Every run from the empty pool. */
  lemma ConsistentRun(p: Pool, steps: seq<Step>)
    requires Initial(p)
    ensures Consistent(Run(p, steps))
  {
    hide Memory, Links, GroupsExist, Receives, Sends, Owned, Carried, Run, Initial, SendsWithin;
    ReachableSound(p, steps);
    SendRun(p, steps);
    OwnershipRun(p, steps);
    UploadRun(p, steps);
  }
}
