/** Concrete lifecycles of one operation, run through the state machine from a fresh contract. */
module TimeLockScenarios {
  import opened EvmTypes
  import opened TimeLockSpec

  function FooCall(target: Address, timestamp: U256): Operation
  {
    Operation(target, 0, "foo()", [], timestamp)
  }

  /** Queue for `now + 20`, execute at `now + 20`: the call succeeds and is logged, the id is no
      longer pending, and executing again is refused as not queued. */
  lemma QueueExecuteReplay(owner: Address, hash: IdHash, target: Address, now: U64, anyResult: bool)
    requires now + 20 < TWO_64
    ensures var op := FooCall(target, now + 20);
            var t1 := QueueStep(Init(owner), hash, owner, now, op);
            var t2 := ExecuteStep(t1.post, hash, owner, now + 20, op, true);
            var t3 := ExecuteStep(t2.post, hash, owner, now + 20, op, anyResult);
            && t1.outcome == Ok && t1.post.log == []
            && t2.outcome == Ok && t2.post.log == [ExecuteEvent(TxId(hash, op), op)]
            && !Pending(t2.post, TxId(hash, op))
            && t3.outcome == Err(NotQueuedError(TxId(hash, op)))
  {
  }

  /** A timestamp beyond MAX_DELAY is refused, and so is one closer than MIN_DELAY; both ends of
      the window are accepted. */
  lemma QueueWindowEdges(owner: Address, hash: IdHash, target: Address, now: U64)
    ensures QueueStep(Init(owner), hash, owner, now, FooCall(target, now + 2000)).outcome
              == Err(TimestampNotInRangeError(now, now + 2000))
    ensures QueueStep(Init(owner), hash, owner, now, FooCall(target, now + 9)).outcome
              == Err(TimestampNotInRangeError(now, now + 9))
    ensures QueueStep(Init(owner), hash, owner, now, FooCall(target, now + 1001)).outcome
              == Err(TimestampNotInRangeError(now, now + 1001))
    ensures QueueStep(Init(owner), hash, owner, now, FooCall(target, now + 10)).outcome == Ok
    ensures QueueStep(Init(owner), hash, owner, now, FooCall(target, now + 1000)).outcome == Ok
  {
  }

  /** Executing one second past the grace period is refused as expired, with the flag kept. */
  lemma ExecuteAfterGrace(owner: Address, hash: IdHash, target: Address, now: U64, callSucceeds: bool)
    requires now + 20 + GRACE_PERIOD + 1 < TWO_64
    ensures var op := FooCall(target, now + 20);
            var t1 := QueueStep(Init(owner), hash, owner, now, op);
            var t2 := ExecuteStep(t1.post, hash, owner, now + 20 + GRACE_PERIOD + 1, op, callSucceeds);
            && t2.outcome == Err(TimestampExpiredError(now + 20 + GRACE_PERIOD + 1, now + 20 + GRACE_PERIOD))
            && t2.post == t1.post
  {
  }

  /** Queue, then cancel: only `Cancel(txId)` is logged, a later `execute` is refused as not
      queued, and the same parameters can be queued again. */
  lemma CancelThenRequeue(owner: Address, hash: IdHash, target: Address, now: U64, callSucceeds: bool)
    requires now + 20 < TWO_64
    ensures var op := FooCall(target, now + 20);
            var t1 := QueueStep(Init(owner), hash, owner, now, op);
            var t2 := CancelStep(t1.post, hash, owner, op);
            var t3 := ExecuteStep(t2.post, hash, owner, now + 20, op, callSucceeds);
            var t4 := QueueStep(t2.post, hash, owner, now, op);
            && t2.outcome == Ok && t2.post.log == [Cancel(TxId(hash, op))]
            && t3.outcome == Err(NotQueuedError(TxId(hash, op)))
            && t4.outcome == Ok && Pending(t4.post, TxId(hash, op))
  {
  }

  /** A call that is not from the owner is refused before anything else is looked at. */
  lemma StrangerRefused(s: State, hash: IdHash, stranger: Address, now: U64, op: Operation, callSucceeds: bool)
    requires stranger != s.owner
    ensures QueueStep(s, hash, stranger, now, op) == Transition(Err(NotOwnerError), s)
    ensures CancelStep(s, hash, stranger, op) == Transition(Err(NotOwnerError), s)
    ensures ExecuteStep(s, hash, stranger, now, op, callSucceeds) == Transition(Err(NotOwnerError), s)
  {
  }
}
