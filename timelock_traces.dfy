/** Sequences of calls into the TimeLock contract, and what holds of every state they reach. */
module TimeLockTraces {
  import opened EvmTypes
  import opened TimeLockSpec

  /** One external call with its caller, its block time and, for `execute`, the success of the
      call it dispatches. */
  datatype Call =
    | QueueCall(sender: Address, now: U64, op: Operation)
    | ExecuteCall(sender: Address, now: U64, op: Operation, callSucceeds: bool)
    | CancelCall(sender: Address, op: Operation)

  function Apply(s: State, hash: IdHash, c: Call): Transition
  {
    match c
    case QueueCall(sender, now, op) => QueueStep(s, hash, sender, now, op)
    case ExecuteCall(sender, now, op, callSucceeds) => ExecuteStep(s, hash, sender, now, op, callSucceeds)
    case CancelCall(sender, op) => CancelStep(s, hash, sender, op)
  }

  /** The state after running `calls` in order from `s`. */
  function Run(s: State, hash: IdHash, calls: seq<Call>): State
    decreases |calls|
  {
    if calls == [] then s
    else Apply(Run(s, hash, calls[..|calls| - 1]), hash, calls[|calls| - 1]).post
  }

  /** A call "touches" its id when it writes the pending flag: a successful `queue` or `cancel`,
      and an `execute` that passed its guards, whether or not its external call then failed. */
  predicate Touches(s: State, hash: IdHash, c: Call, id: Bytes32)
  {
    var o := Apply(s, hash, c).outcome;
    TxId(hash, c.op) == id && (o == Ok || o == Err(TxFailedError))
  }

  /** The most recent call in `calls` that touched `id`, judged against the state it ran in. */
  function LastTouch(s: State, hash: IdHash, calls: seq<Call>, id: Bytes32): Option<Call>
    decreases |calls|
  {
    if calls == [] then None
    else
      var before := calls[..|calls| - 1];
      var c := calls[|calls| - 1];
      if Touches(Run(s, hash, before), hash, c, id) then Some(c) else LastTouch(s, hash, before, id)
  }

  /** A call that does not touch `id` leaves its flag alone; one that does flips it, to true
      exactly when the call is a `queue`. */
  lemma StepTouch(s: State, hash: IdHash, c: Call, id: Bytes32)
    ensures Apply(s, hash, c).post.owner == s.owner
    ensures !Touches(s, hash, c, id) ==> Pending(Apply(s, hash, c).post, id) == Pending(s, id)
    ensures Touches(s, hash, c, id) ==>
              Pending(Apply(s, hash, c).post, id) == c.QueueCall? && Pending(s, id) == !c.QueueCall?
  {
  }

  /** An id is pending after a run exactly when the last call that touched it was a `queue`
      (or, if none did, when it was pending before the run). */
  lemma {:induction false} PendingIffLastTouchQueued(s: State, hash: IdHash, calls: seq<Call>, id: Bytes32)
    ensures Pending(Run(s, hash, calls), id) <==>
              match LastTouch(s, hash, calls, id)
              case Some(c) => c.QueueCall?
              case None => Pending(s, id)
    decreases |calls|
  {
    if calls != [] {
      var before := calls[..|calls| - 1];
      PendingIffLastTouchQueued(s, hash, before, id);
      StepTouch(Run(s, hash, before), hash, calls[|calls| - 1], id);
    }
  }

  /** From a freshly constructed contract: pending exactly when some `queue` touched the id more
      recently than any `execute` or `cancel`. */
  lemma PendingFromInit(owner: Address, hash: IdHash, calls: seq<Call>, id: Bytes32)
    ensures Pending(Run(Init(owner), hash, calls), id) <==>
              LastTouch(Init(owner), hash, calls, id).Some? && LastTouch(Init(owner), hash, calls, id).value.QueueCall?
  {
    PendingIffLastTouchQueued(Init(owner), hash, calls, id);
  }

  /** No call changes the owner. */
  lemma {:induction false} RunKeepsOwner(s: State, hash: IdHash, calls: seq<Call>)
    ensures Run(s, hash, calls).owner == s.owner
    decreases |calls|
  {
    if calls != [] {
      RunKeepsOwner(s, hash, calls[..|calls| - 1]);
      StepTouch(Run(s, hash, calls[..|calls| - 1]), hash, calls[|calls| - 1], TxId(hash, calls[|calls| - 1].op));
    }
  }

  /** The log only grows, and nothing appended to it is a `Queue` event. */
  lemma {:induction false} RunOnlyAppendsExecuteAndCancel(s: State, hash: IdHash, calls: seq<Call>)
    ensures s.log <= Run(s, hash, calls).log
    ensures forall i :: |s.log| <= i < |Run(s, hash, calls).log| ==> !Run(s, hash, calls).log[i].Queue?
    decreases |calls|
  {
    if calls != [] {
      RunOnlyAppendsExecuteAndCancel(s, hash, calls[..|calls| - 1]);
    }
  }
}
