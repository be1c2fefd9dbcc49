/** How one request takes its permit, runs, and hands the permit on or back. */
module Spawner {
  import opened Wrappers
  import opened BodyReader
  import BodyProtocol
  import Permits

  datatype SpawnError = PoolTimeout | SendFailed | BodyFailed

  /** A counting semaphore with an optional time limit for waiting. */
  class ConnectionLimiter {
    var available: nat
    const timeout: Option<nat>

    constructor (limit: nat, timeout: Option<nat>)
      ensures available == limit && this.timeout == timeout
    {
      this.available := limit;
      this.timeout := timeout;
    }

    /**
     * Waits for a permit. `wait` is the time after which the semaphore grants one, None if it never does:
     * then only a time limit ends the wait.
     */
    method LimitConnections(requestTimeout: Option<nat>, wait: Option<nat>) returns (granted: bool)
      requires wait.Some? ==> available > 0
      requires wait.None? ==> timeout.Some? || requestTimeout.Some?
      modifies this
      ensures granted <==>
              wait.Some? && (timeout.Some? ==> wait.value <= timeout.value)
              && (requestTimeout.Some? ==> wait.value <= requestTimeout.value)
      ensures available == if granted then old(available) - 1 else old(available)
    {
      var limit := match (timeout, requestTimeout) {
        case (Some(t1), Some(t2)) => Some(if t1 <= t2 then t1 else t2)
        case (Some(t1), None) => Some(t1)
        case (None, Some(t2)) => Some(t2)
        case (None, None) => None
      };
      granted := wait.Some? && (limit.None? || wait.value <= limit.value);
      if granted {
        available := available - 1;
      }
    }
  }

  /** The permit of a request; it is None when the client has no limiter. */
  class SpawnedRequestPermit {
    const limiter: ConnectionLimiter?
    var held: bool

    constructor (limiter: ConnectionLimiter?)
      ensures this.limiter == limiter && held == (limiter != null)
    {
      this.limiter := limiter;
      this.held := limiter != null;
    }

    /** Returns the permit; a permit that was already taken is not returned again. */
    method Drop()
      requires held ==> limiter != null
      modifies this, limiter
      ensures !held
      ensures limiter != null ==>
                limiter.available == old(limiter.available) + (if old(held) then 1 else 0)
    {
      if held {
        limiter.available := limiter.available + 1;
      }
      held := false;
    }
  }

  /** The settings of the request that go on the wire. */
  class WireRequest {
    var timeout: Option<nat>
    const isHead: bool

    constructor (timeout: Option<nat>, isHead: bool)
      ensures this.timeout == timeout && this.isHead == isHead
    {
      this.timeout := timeout;
      this.isHead := isHead;
    }
  }

  /** Which time limits a wait of `wait` and a measured `elapsed` time respect. */
  predicate InTime(limiterTimeout: Option<nat>, requestTimeout: Option<nat>, wait: Option<nat>, elapsed: nat) {
    && wait.Some?
    && (limiterTimeout.Some? ==> wait.value <= limiterTimeout.value)
    && (requestTimeout.Some? ==> wait.value <= requestTimeout.value && elapsed < requestTimeout.value)
  }

  /** Takes a permit, and leaves the request the time that the wait has not used up. */
  method LimitConnections(limiter: ConnectionLimiter, request: WireRequest, wait: Option<nat>, elapsed: nat)
    returns (ok: bool, ghost granted: bool)
    requires wait.Some? ==> limiter.available > 0
    requires wait.None? ==> limiter.timeout.Some? || request.timeout.Some?
    modifies limiter, request
    // A permit may come in time for the wait and still too late for the request: then it goes back at once
    ensures granted ==> wait.Some? && (limiter.timeout.Some? ==> wait.value <= limiter.timeout.value)
    ensures ok ==> granted
    ensures granted && !ok ==> old(request.timeout).Some? && elapsed >= old(request.timeout).value
    ensures ok <==> InTime(limiter.timeout, old(request.timeout), wait, elapsed)
    // The deadline stays where it was: time spent waiting plus time left is the original time limit
    ensures ok && old(request.timeout).Some? ==>
              request.timeout.Some? && request.timeout.value > 0
              && elapsed + request.timeout.value == old(request.timeout).value
    ensures old(request.timeout).None? || !ok ==> request.timeout == old(request.timeout)
    ensures limiter.available == if ok then old(limiter.available) - 1 else old(limiter.available)
  {
    var reqTimeout := request.timeout;
    var acquired := limiter.LimitConnections(reqTimeout, wait);
    if !acquired {
      return false, false;
    }
    granted := true;
    if reqTimeout.Some? {
      if elapsed >= reqTimeout.value {
        limiter.available := limiter.available + 1; // The permit is dropped with the error
        return false, true;
      }
      request.timeout := Some(reqTimeout.value - elapsed);
    }
    ok := true;
  }

  /**
   * The spawned task of one request. The permit is back when the task is over, unless the body is still
   * streaming: then it belongs to the reader task. `sent` says whether the request could be executed. In a
   * pool of requests, `end` names the path that request `i` took.
   */
  method RunRequest(limiter: ConnectionLimiter?, request: WireRequest, config: BodyProtocol.ReadConfig,
                    wait: Option<nat>, elapsed: nat, sent: bool, source: BodyProtocol.Source,
                    ghost pool: Permits.State, ghost i: nat)
    returns (r: Result<BodyReader, SpawnError>, readerPermit: SpawnedRequestPermit?, ghost end: Option<Permits.Exit>)
    requires limiter != null ==>
               && (wait.Some? ==> limiter.available > 0)
               && (wait.None? ==> limiter.timeout.Some? || request.timeout.Some?)
               && InLine(pool, i, limiter, request, source, EffectiveConfig(request.isHead, config))
    modifies limiter, request
    ensures r.Ok? <==>
            && (limiter != null ==> InTime(limiter.timeout, old(request.timeout), wait, elapsed))
            && sent && BodyProtocol.Start(source, EffectiveConfig(request.isHead, config)).Some?
    // Which error, and when
    ensures r == Err(PoolTimeout) <==>
            limiter != null && !InTime(limiter.timeout, old(request.timeout), wait, elapsed)
    ensures r == Err(PoolTimeout) <==>
            limiter != null
            && (wait.None?
                || (limiter.timeout.Some? && wait.value > limiter.timeout.value)
                || (old(request.timeout).Some?
                    && (wait.value > old(request.timeout).value || elapsed >= old(request.timeout).value)))
    ensures r != Err(PoolTimeout) ==> (r == Err(SendFailed) <==> !sent)
    ensures r != Err(PoolTimeout) ==>
              (r == Err(BodyFailed) <==>
                 sent && BodyProtocol.Start(source, EffectiveConfig(request.isHead, config)).None?)
    // The request goes out with the time that is left of its limit
    ensures r != Err(PoolTimeout) ==>
              request.timeout == if limiter != null && old(request.timeout).Some?
                                 then Some(old(request.timeout).value - elapsed) else old(request.timeout)
    // Exactly a streaming body keeps the permit, and the reader task owns it
    ensures readerPermit != null <==> r.Ok? && r.value.receiver != null
    ensures readerPermit != null ==> readerPermit.limiter == limiter && readerPermit.held == (limiter != null)
    ensures limiter != null ==>
              limiter.available == if readerPermit != null then old(limiter.available) - 1 else old(limiter.available)
    // ... and so says the pool
    ensures limiter != null ==>
              var after := Permits.Replay(pool, Permits.Path(i, end));
              && after.available == limiter.available
              && Permits.InPhase(after, i, if readerPermit != null then Permits.Streaming(r.value.state) else Permits.Over)
    ensures r.Ok? ==>
              && r.value.Idle() && r.value.whole == source
              && (request.isHead ==> r.value.receiver == null && r.value.pendingChunks == [])
              && (!request.isHead ==> r.value.config == config)
  {
    if limiter != null {
      var ok, granted := LimitConnections(limiter, request, wait, elapsed);
      if !ok {
        end := Some(if granted then Permits.LateAcquire else Permits.PoolTimeout);
        Permits.PathEffect(pool, i, end);
        return Err(PoolTimeout), null, end;
      }
    }
    var permit := new SpawnedRequestPermit(limiter);
    r, readerPermit, end := Execute(permit, request.isHead, config, sent, source);
    if limiter != null {
      Permits.PathEffect(pool, i, end);
    }
  }

  /** The pool sees request `i` wait at this limiter, with this body to come. */
  ghost predicate InLine(pool: Permits.State, i: nat, limiter: ConnectionLimiter, request: WireRequest,
                         source: BodyProtocol.Source, config: BodyProtocol.ReadConfig)
    reads limiter, request
  {
    && pool.available == limiter.available
    && Permits.InPhase(pool, i, Permits.Queued)
    && pool.requests[i].source == source && pool.requests[i].config == config
    && pool.requests[i].timed == (limiter.timeout.Some? || request.timeout.Some?)
  }

  function EffectiveConfig(isHead: bool, config: BodyProtocol.ReadConfig): BodyProtocol.ReadConfig {
    if isHead then BodyProtocol.NoBody else config
  }

  /** The task once it has its permit. */
  method Execute(permit: SpawnedRequestPermit, isHead: bool, config: BodyProtocol.ReadConfig,
                 sent: bool, source: BodyProtocol.Source)
    returns (r: Result<BodyReader, SpawnError>, readerPermit: SpawnedRequestPermit?, ghost end: Option<Permits.Exit>)
    requires permit.held == (permit.limiter != null)
    modifies permit, permit.limiter
    ensures r.Ok? <==> sent && BodyProtocol.Start(source, EffectiveConfig(isHead, config)).Some?
    ensures r == Err(SendFailed) <==> !sent
    ensures r == Err(BodyFailed) <==> sent && BodyProtocol.Start(source, EffectiveConfig(isHead, config)).None?
    // The body breaks off before the prefetch is done
    ensures r == Err(BodyFailed) <==>
            sent && !isHead && !config.NoBody? && source.fails
            && (config.FullyConsumed? || |BodyProtocol.Content(source.frames)| < config.limit)
    ensures r.Err? ==> !r.error.PoolTimeout?
    ensures readerPermit == if r.Ok? && r.value.receiver != null then permit else null
    ensures permit.held == (readerPermit != null && permit.limiter != null)
    ensures permit.limiter != null ==>
              permit.limiter.available == old(permit.limiter.available) + (if readerPermit != null then 0 else 1)
    ensures end == if !sent then Some(Permits.ExecuteError)
                   else if r.Err? then Some(Permits.InitializeError)
                   else if readerPermit == null then Some(Permits.FullyRead) else None
    ensures r.Ok? ==> Some(r.value.state) == BodyProtocol.Start(source, EffectiveConfig(isHead, config))
    ensures r.Ok? ==> (r.value.receiver != null <==> r.value.state.link.Some?)
    ensures r.Ok? ==>
              && r.value.Idle() && r.value.whole == source
              && (isHead ==> r.value.receiver == null && r.value.pendingChunks == [])
              && (!isHead ==> r.value.config == config)
  {
    readerPermit := null;
    var readConfig := config;
    if isHead {
      readConfig := BodyProtocol.NoBody;
    }
    if !sent {
      permit.Drop();
      return Err(SendFailed), null, Some(Permits.ExecuteError);
    }
    var reader := BodyReader.Initialize(source, readConfig, true);
    if reader.Err? {
      permit.Drop();
      return Err(BodyFailed), null, Some(Permits.InitializeError);
    }
    end := None;
    if reader.value.receiver != null {
      readerPermit := permit;
    } else {
      permit.Drop(); // No more body to read
      end := Some(Permits.FullyRead);
    }
    r := Ok(reader.value);
  }
}
