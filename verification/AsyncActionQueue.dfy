/** The action queue as the object that callers share.  Every method is one section between two awaits; the
    condition variable appears as the flag `notify`, which says that the section wakes all sleepers. */
module AsyncActionQueue {
  import opened Types
  import opened ActionQueue

  datatype Attempt = Got(action: QueuedAction) | Refused(error: QueueError) | MustWait

  datatype Claimed = Yes | No | NotYet

  class AsyncQueue {
    const config: QueueConfig
    var actions: seq<QueuedAction>
    var latestSequenceNo: Option<int>
    var refillInflight: bool
    var closed: bool
    var acceptedChunks: nat
    var rejectedChunks: nat
    var servedActions: nat
    var replacedActions: nat
    var underruns: nat
    ghost var history: seq<ActionChunk>
    ghost var trace: seq<QueuedAction>

    ghost function Value(): Queue
      reads this
    {
      Queue(actions, latestSequenceNo, refillInflight, closed, acceptedChunks, rejectedChunks, servedActions,
            replacedActions, underruns, history, trace)
    }

    constructor (config: QueueConfig)
      ensures this.config == config && Value() == FRESH
    {
      this.config := config;
      actions, latestSequenceNo, refillInflight, closed := [], None, false, false;
      acceptedChunks, rejectedChunks, servedActions, replacedActions, underruns := 0, 0, 0, 0, 0;
      history, trace := [], [];
    }

    function NeedsRefillNow(): (r: bool)
      reads this
      ensures r == NeedsRefill(config, Value())
    {
      !closed && !refillInflight && |actions| <= config.lowWatermark
    }

    method Extend(chunk: ActionChunk)
      modifies this`actions
      ensures actions == old(actions) + Items(chunk)
    {
      for index := 0 to |chunk.actions|
        invariant actions == old(actions) + Items(chunk)[..index]
      {
        actions := actions + [Item(chunk, index)];
      }
    }

    method PutLocked(chunk: ActionChunk) returns (r: Result<bool, QueueError>)
      modifies this
      ensures Value() == Put(config, old(Value()), chunk)
      ensures r == if old(closed) then Err(Closed) else Ok(Accepts(config, old(Value()), chunk))
    {
      if closed {
        return Err(Closed);
      }
      if chunk.sessionId != config.sessionId || chunk.model != config.model {
        rejectedChunks := rejectedChunks + 1;
        return Ok(false);
      }
      if latestSequenceNo.Some? && chunk.sequenceNo <= latestSequenceNo.value {
        rejectedChunks := rejectedChunks + 1;
        return Ok(false);
      }
      if chunk.actions == [] {
        rejectedChunks := rejectedChunks + 1;
        return Ok(false);
      }
      if config.policy.Replace? {
        replacedActions := replacedActions + |actions|;
        actions := [];
      }
      Extend(chunk);
      latestSequenceNo := Some(chunk.sequenceNo);
      acceptedChunks := acceptedChunks + 1;
      history := history + [chunk];
      return Ok(true);
    }

    method PutChunk(chunk: ActionChunk) returns (r: Result<bool, QueueError>, notify: bool)
      modifies this
      ensures Value() == Put(config, old(Value()), chunk)
      ensures r == if old(closed) then Err(Closed) else Ok(Accepts(config, old(Value()), chunk))
      ensures notify == !old(closed)
    {
      r := PutLocked(chunk);
      return r, r.Ok?;
    }

    method FinishRefillWith(chunk: Option<ActionChunk>) returns (r: Result<bool, QueueError>, notify: bool)
      modifies this
      ensures Value() == FinishRefill(config, old(Value()), chunk)
      ensures r == if chunk.None? then Ok(true)
                   else if old(closed) then Err(Closed)
                   else Ok(Accepts(config, old(Value()), chunk.value))
      ensures notify == r.Ok?
    {
      r := Ok(true);
      if chunk.Some? {
        r := PutLocked(chunk.value);
        if r.Err? {
          return r, false;
        }
      }
      refillInflight := false;
      return r, true;
    }

    /** One pass of the wait loop of `acquire_refill`. */
    method TryAcquireRefill() returns (r: Claimed)
      modifies this`refillInflight
      ensures r.Yes? <==> !old(closed) && !old(refillInflight) && |old(actions)| <= config.lowWatermark
      ensures r.No? <==> old(closed)
      ensures Value() == if r.Yes? then Claim(old(Value())) else old(Value())
    {
      if !NeedsRefillNow() {
        return if closed then No else NotYet;
      }
      refillInflight := true;
      return Yes;
    }

    method PopLocked() returns (action: QueuedAction)
      requires actions != []
      modifies this
      ensures action == old(actions[0]) && Value() == Pop(old(Value()))
    {
      action := actions[0];
      actions := actions[1..];
      servedActions := servedActions + 1;
      trace := trace + [action];
    }

    /** One pass of the wait loop of `get`. */
    method TryGet() returns (r: Attempt, notify: bool)
      modifies this
      ensures r == if old(actions) != [] then Got(old(actions[0])) else if old(closed) then Refused(Closed)
                   else MustWait
      ensures Value() == if r.Got? then Pop(old(Value())) else old(Value())
      ensures notify == r.Got?
    {
      if actions == [] {
        return if closed then Refused(Closed) else MustWait, false;
      }
      var action := PopLocked();
      return Got(action), true;
    }

    /** What `get` does when its caller's deadline passes first. */
    method GiveUp() returns (error: QueueError)
      modifies this`underruns
      ensures Value() == Underrun(old(Value())) && error == Empty
    {
      underruns := underruns + 1;
      return Empty;
    }

    method GetOrFail() returns (r: Result<QueuedAction, QueueError>, notify: bool)
      modifies this
      ensures r == if old(actions) != [] then Ok(old(actions[0])) else if old(closed) then Err(Closed) else Err(Empty)
      ensures Value() == GetNowait(old(Value()))
      ensures notify == r.Ok?
    {
      if actions == [] {
        if closed {
          return Err(Closed), false;
        }
        underruns := underruns + 1;
        return Err(Empty), false;
      }
      var action := PopLocked();
      return Ok(action), true;
    }

    method Close() returns (notify: bool)
      modifies this`closed
      ensures Value() == old(Value()).(closed := true) && notify
    {
      closed := true;
      return true;
    }
  }
}
