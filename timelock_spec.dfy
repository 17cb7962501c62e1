/** The TimeLock contract as a pure state machine: its storage (`owner`, `queued`) and the events it
    has emitted form a `State`, and each external entry point is a function from the state before
    the call to its result and the state after it. The class in TimeLockContract is proved against
    these functions; the lemmas here and in TimeLockTraces are stated about them. */
module TimeLockSpec {
  import opened EvmTypes

  const MIN_DELAY: U64 := 10
  const MAX_DELAY: U64 := 1000
  const GRACE_PERIOD: U64 := 1000

  datatype Option<T> = None | Some(value: T)

  /** The five parameters shared by `get_tx_id`, `queue`, `execute` and `cancel`. */
  datatype Operation = Operation(target: Address, value: U256, func: string, data: seq<Byte>, timestamp: U256)

  /** The id derivation: the ABI encoding of the five parameters followed by Keccak-256.
      Neither is part of this model; the contract is parameterised by the resulting function. */
  type IdHash = Operation -> Bytes32

  /** The id of `op`: the name the state machine uses for `hash(op)`. */
  function TxId(hash: IdHash, op: Operation): Bytes32
  {
    hash(op)
  }

  datatype TimeLockError =
    | NotOwnerError
    | AlreadyQueuedError(txId: Bytes32)
    | TimestampNotInRangeError(blockTimestamp: U256, timestamp: U256)
    | NotQueuedError(txId: Bytes32)
    | TimestampNotPassedError(blockTimestamp: U256, timestamp: U256)
    | TimestampExpiredError(blockTimestamp: U256, expiresAt: U256)
    | TxFailedError

  /** `Result<(), TimeLockError>` */
  datatype Outcome = Ok | Err(error: TimeLockError)

  /** The declared events. `Queue` is declared but no entry point emits it. */
  datatype Event =
    | Queue(txId: Bytes32, target: Address, value: U256, func: string, data: seq<Byte>, timestamp: U256)
    | Execute(txId: Bytes32, target: Address, value: U256, func: string, data: seq<Byte>, timestamp: U256)
    | Cancel(txId: Bytes32)

  /** Contract storage plus the log of emitted events. A key missing from `queued` reads as false,
      as an unset storage slot does. */
  datatype State = State(owner: Address, queued: map<Bytes32, bool>, log: seq<Event>)

  function Init(owner: Address): State
  {
    State(owner, map[], [])
  }

  predicate Pending(s: State, id: Bytes32)
  {
    id in s.queued && s.queued[id]
  }

  /** The result of one call and the state it leaves behind. */
  datatype Transition = Transition(outcome: Outcome, post: State)

  /** The scheduling window `queue` accepts, inclusive at both ends. */
  predicate InQueueWindow(now: U64, timestamp: U256)
  {
    now + MIN_DELAY <= timestamp <= now + MAX_DELAY
  }

  /** The execution window `[timestamp, timestamp + GRACE_PERIOD]`, in unbounded arithmetic. */
  predicate InExecutionWindow(now: U64, timestamp: U256)
  {
    timestamp <= now <= timestamp + GRACE_PERIOD
  }

  function ExecuteEvent(id: Bytes32, op: Operation): Event
  {
    Event.Execute(id, op.target, op.value, op.func, op.data, op.timestamp)
  }

  /** `queue`: owner check, then the already-queued check, then the scheduling window; on success
      the id becomes pending and nothing is logged. */
  function QueueStep(s: State, hash: IdHash, sender: Address, now: U64, op: Operation): (t: Transition)
    ensures t.post.owner == s.owner && t.post.log == s.log
    ensures t.outcome == Ok <==> sender == s.owner && !Pending(s, TxId(hash, op)) && InQueueWindow(now, op.timestamp)
    ensures t.outcome == Ok ==> t.post.queued == s.queued[TxId(hash, op) := true]
    ensures t.outcome != Ok ==> t.post == s
    ensures sender != s.owner ==> t.outcome == Err(NotOwnerError)
    ensures sender == s.owner && Pending(s, TxId(hash, op)) ==>
              t.outcome == Err(AlreadyQueuedError(TxId(hash, op)))
    ensures sender == s.owner && !Pending(s, TxId(hash, op)) && !InQueueWindow(now, op.timestamp) ==>
              t.outcome == Err(TimestampNotInRangeError(now, op.timestamp))
  {
    if sender != s.owner then
      Transition(Err(NotOwnerError), s)
    else
      var txId := TxId(hash, op);
      if Pending(s, txId) then
        Transition(Err(AlreadyQueuedError(txId)), s)
      else if op.timestamp < now + MIN_DELAY || op.timestamp > now + MAX_DELAY then
        Transition(Err(TimestampNotInRangeError(now, op.timestamp)), s)
      else
        Transition(Ok, s.(queued := s.queued[txId := true]))
  }

  /** The outcome of `execute`'s guards, which run before anything is written. */
  datatype Check = Pass | Fail(error: TimeLockError)

  /** `execute`'s guards in their order: owner, pending, not too early, not expired. The expiry
      bound is computed in U256 arithmetic, but only after `timestamp <= now` is established, so
      it is always the exact sum. */
  function ExecuteChecks(s: State, hash: IdHash, sender: Address, now: U64, op: Operation): (c: Check)
    ensures c.Pass? <==>
              sender == s.owner && Pending(s, TxId(hash, op)) &&
              op.timestamp <= now <= WrappingAdd(op.timestamp, GRACE_PERIOD)
    ensures c.Pass? <==> sender == s.owner && Pending(s, TxId(hash, op)) && InExecutionWindow(now, op.timestamp)
    ensures c.Fail? && c.error.TimestampExpiredError? ==> c.error.expiresAt == op.timestamp + GRACE_PERIOD
    ensures sender != s.owner ==> c == Fail(NotOwnerError)
    ensures sender == s.owner && !Pending(s, TxId(hash, op)) ==> c == Fail(NotQueuedError(TxId(hash, op)))
    ensures sender == s.owner && Pending(s, TxId(hash, op)) && now < op.timestamp ==>
              c == Fail(TimestampNotPassedError(now, op.timestamp))
    ensures sender == s.owner && Pending(s, TxId(hash, op)) && op.timestamp <= now &&
            now > WrappingAdd(op.timestamp, GRACE_PERIOD) ==>
              c == Fail(TimestampExpiredError(now, WrappingAdd(op.timestamp, GRACE_PERIOD)))
  {
    if sender != s.owner then
      Fail(NotOwnerError)
    else
      var txId := TxId(hash, op);
      if !Pending(s, txId) then
        Fail(NotQueuedError(txId))
      else if now < op.timestamp then
        Fail(TimestampNotPassedError(now, op.timestamp))
      else
        var expiresAt := WrappingAdd(op.timestamp, GRACE_PERIOD);
        if now > expiresAt then Fail(TimestampExpiredError(now, expiresAt)) else Pass
  }

  /** The state the external call observes: the flag of `id` is already cleared. */
  function AtDispatch(s: State, id: Bytes32): (d: State)
    ensures !Pending(d, id)
    ensures d.owner == s.owner && d.log == s.log
    ensures forall other :: other != id ==> Pending(d, other) == Pending(s, other)
  {
    s.(queued := s.queued[id := false])
  }

  /** `execute`: the guards, then the flag is cleared, then the external call, whose success is
      `callSucceeds`; only a successful call is logged. A failed call leaves the flag cleared. */
  function ExecuteStep(s: State, hash: IdHash, sender: Address, now: U64, op: Operation, callSucceeds: bool): (t: Transition)
    ensures t.post.owner == s.owner
    ensures t.outcome == Ok <==> ExecuteChecks(s, hash, sender, now, op).Pass? && callSucceeds
    ensures ExecuteChecks(s, hash, sender, now, op).Fail? ==>
              t == Transition(Err(ExecuteChecks(s, hash, sender, now, op).error), s)
    ensures ExecuteChecks(s, hash, sender, now, op).Pass? ==>
              t.post.queued == AtDispatch(s, TxId(hash, op)).queued && !Pending(t.post, TxId(hash, op))
    ensures ExecuteChecks(s, hash, sender, now, op).Pass? && callSucceeds ==>
              t.post.log == s.log + [ExecuteEvent(TxId(hash, op), op)]
    ensures ExecuteChecks(s, hash, sender, now, op).Pass? && !callSucceeds ==>
              t.outcome == Err(TxFailedError) && t.post.log == s.log
  {
    match ExecuteChecks(s, hash, sender, now, op)
    case Fail(e) => Transition(Err(e), s)
    case Pass =>
      var txId := TxId(hash, op);
      var d := AtDispatch(s, txId);
      if callSucceeds then
        Transition(Ok, d.(log := d.log + [ExecuteEvent(txId, op)]))
      else
        Transition(Err(TxFailedError), d)
  }

  /** `cancel`: owner check, then the pending check; on success the flag is cleared and `Cancel`
      carrying only the id is logged. `cancel` reads no clock. */
  function CancelStep(s: State, hash: IdHash, sender: Address, op: Operation): (t: Transition)
    ensures t.post.owner == s.owner
    ensures t.outcome == Ok <==> sender == s.owner && Pending(s, TxId(hash, op))
    ensures t.outcome == Ok ==>
              t.post.queued == s.queued[TxId(hash, op) := false] &&
              t.post.log == s.log + [Cancel(TxId(hash, op))]
    ensures t.outcome != Ok ==> t.post == s
    ensures sender != s.owner ==> t.outcome == Err(NotOwnerError)
    ensures sender == s.owner && !Pending(s, TxId(hash, op)) ==> t.outcome == Err(NotQueuedError(TxId(hash, op)))
  {
    if sender != s.owner then
      Transition(Err(NotOwnerError), s)
    else
      var txId := TxId(hash, op);
      if !Pending(s, txId) then
        Transition(Err(NotQueuedError(txId)), s)
      else
        Transition(Ok, State(s.owner, s.queued[txId := false], s.log + [Cancel(txId)]))
  }

  /** While the external call of a successful `execute` is in flight, `execute` and `cancel` of
      any operation with the same id find it not queued, and `queue` of the same operation at the
      same block time finds the timestamp already in the past. (`queue` of a different operation
      that shares the id can still succeed.) */
  lemma DispatchBlocksReentry(s: State, hash: IdHash, now: U64, op: Operation, other: Operation, callSucceeds: bool)
    requires ExecuteChecks(s, hash, s.owner, now, op).Pass?
    requires TxId(hash, other) == TxId(hash, op)
    ensures ExecuteStep(AtDispatch(s, TxId(hash, op)), hash, s.owner, now, other, callSucceeds).outcome
              == Err(NotQueuedError(TxId(hash, op)))
    ensures CancelStep(AtDispatch(s, TxId(hash, op)), hash, s.owner, other).outcome
              == Err(NotQueuedError(TxId(hash, op)))
    ensures QueueStep(AtDispatch(s, TxId(hash, op)), hash, s.owner, now, op).outcome
              == Err(TimestampNotInRangeError(now, op.timestamp))
  {
  }

  /** The expiry sum is only computed once the not-yet-passed guard has ruled out
      `timestamp > now`, and block time is below 2^64, so it never wraps around. */
  lemma ExpirySumNeverWraps(now: U64, timestamp: U256)
    requires timestamp <= now
    ensures WrappingAdd(timestamp, GRACE_PERIOD) == timestamp + GRACE_PERIOD
  {
  }
}
