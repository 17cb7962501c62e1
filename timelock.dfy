/** The `TimeLock` contract object. Storage is the immutable `owner` and the `queued` mapping;
    the event log is ghost. The caller (`msg::sender()`), the block time (`block::timestamp()`)
    and the success of the external call are parameters of the entry points. */
module TimeLockContract {
  import opened EvmTypes
  import opened TimeLockSpec

  class TimeLock {
    const owner: Address
    /** ABI encoding followed by Keccak-256, supplied at construction. */
    const hash: IdHash
    var queued: map<Bytes32, bool>
    ghost var log: seq<Event>

    ghost function Abstract(): State
      reads this
    {
      State(owner, queued, log)
    }

    constructor (owner: Address, hash: IdHash)
      ensures this.hash == hash
      ensures Abstract() == Init(owner)
    {
      this.owner := owner;
      this.hash := hash;
      queued := map[];
      log := [];
    }

    /** `get_tx_id`: reads no storage (no reads clause), so the id depends only on the five
        parameters, and it is the id `queue`, `execute` and `cancel` use. */
    function GetTxId(target: Address, value: U256, func: string, data: seq<Byte>, timestamp: U256): (id: Bytes32)
      ensures id == TxId(hash, Operation(target, value, func, data, timestamp))
    {
      hash(Operation(target, value, func, data, timestamp))
    }

    function IsQueued(id: Bytes32): (b: bool)
      reads this
      ensures b == Pending(Abstract(), id)
    {
      id in queued && queued[id]
    }

    method Queue(sender: Address, now: U64, target: Address, value: U256, func: string, data: seq<Byte>, timestamp: U256)
      returns (r: Outcome)
      modifies this
      ensures Transition(r, Abstract())
                == QueueStep(old(Abstract()), hash, sender, now, Operation(target, value, func, data, timestamp))
    {
      if owner != sender {
        return Err(NotOwnerError);
      }
      var txId := GetTxId(target, value, func, data, timestamp);
      if IsQueued(txId) {
        return Err(AlreadyQueuedError(txId));
      }
      if timestamp < now + MIN_DELAY || timestamp > now + MAX_DELAY {
        return Err(TimestampNotInRangeError(now, timestamp));
      }
      queued := queued[txId := true];
      r := Ok;
    }

    /** `atCall` is the state the external call observes, or None when a guard failed and no call
        was made. */
    method Execute(sender: Address, now: U64, target: Address, value: U256, func: string, data: seq<Byte>, timestamp: U256,
                   callSucceeds: bool)
      returns (r: Outcome, ghost atCall: Option<State>)
      modifies this
      ensures Transition(r, Abstract())
                == ExecuteStep(old(Abstract()), hash, sender, now, Operation(target, value, func, data, timestamp), callSucceeds)
      ensures atCall.Some? <==> ExecuteChecks(old(Abstract()), hash, sender, now, Operation(target, value, func, data, timestamp)).Pass?
      ensures atCall.Some? ==>
                atCall.value == AtDispatch(old(Abstract()), GetTxId(target, value, func, data, timestamp)) &&
                !Pending(atCall.value, GetTxId(target, value, func, data, timestamp))
    {
      atCall := None;
      if owner != sender {
        return Err(NotOwnerError), atCall;
      }
      var txId := GetTxId(target, value, func, data, timestamp);
      if !IsQueued(txId) {
        return Err(NotQueuedError(txId)), atCall;
      }
      if now < timestamp {
        return Err(TimestampNotPassedError(now, timestamp)), atCall;
      }
      var expiresAt := WrappingAdd(timestamp, GRACE_PERIOD);
      if now > expiresAt {
        return Err(TimestampExpiredError(now, expiresAt)), atCall;
      }
      queued := queued[txId := false];
      atCall := Some(Abstract());
      if callSucceeds {
        log := log + [Event.Execute(txId, target, value, func, data, timestamp)];
        r := Ok;
      } else {
        r := Err(TxFailedError);
      }
    }

    method Cancel(sender: Address, target: Address, value: U256, func: string, data: seq<Byte>, timestamp: U256)
      returns (r: Outcome)
      modifies this
      ensures Transition(r, Abstract())
                == CancelStep(old(Abstract()), hash, sender, Operation(target, value, func, data, timestamp))
    {
      if owner != sender {
        return Err(NotOwnerError);
      }
      var txId := GetTxId(target, value, func, data, timestamp);
      if !IsQueued(txId) {
        return Err(NotQueuedError(txId));
      }
      queued := queued[txId := false];
      log := log + [Event.Cancel(txId)];
      r := Ok;
    }
  }
}
