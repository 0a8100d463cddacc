/** The in-memory score store. In the program a single owner goroutine holds
    the map and serves one request at a time; a caller meets it at three
    hand-offs (submitting the request, delivering its payload, collecting the
    result), each of which races the caller's context. Here the owner's work
    and the caller's work for one request run in sequence, and the outcome of
    the races is an input: which hand-off, if any, the context won, and when. */
module Memory {
  import opened Domain

  /** A uuid.UUID; 0 stands for uuid.Nil. */
  type Uuid = nat

  const Nil: Uuid := 0

  /** A point in time, in nanoseconds. */
  type Time = int

  /** defaultTimeOut: one second. */
  const DefaultTimeOut: nat := 1_000_000_000

  // ---------------------------------------------------------------------------
  // Contexts
  // ---------------------------------------------------------------------------

  /** A caller's context.Context: an optional deadline and the time, if any,
      at which it is cancelled. */
  datatype Context = Context(deadline: Option<Time>, canceledAt: Option<Time>)

  /** Whether ctx.Done() is closed at time t. */
  predicate Done(ctx: Context, t: Time) {
    || (ctx.deadline.Some? && ctx.deadline.value <= t)
    || (ctx.canceledAt.Some? && ctx.canceledAt.value <= t)
  }

  /** ctx.Err() at time t: nil until the context is done, then the cause that
      came first (the deadline, when both fall on the same instant). */
  function CtxErr(ctx: Context, t: Time): (e: Option<Error>)
    ensures e.Some? <==> Done(ctx, t)
    ensures e == Some(Canceled) <==>
      Done(ctx, t) && ctx.canceledAt.Some? &&
      (ctx.deadline.None? || ctx.canceledAt.value < ctx.deadline.value)
    ensures e.Some? ==> e.value == Canceled || e.value == DeadlineExceeded
  {
    if !Done(ctx, t) then None
    else if ctx.canceledAt.Some? && ctx.canceledAt.value <= t
            && (ctx.deadline.None? || ctx.canceledAt.value < ctx.deadline.value)
    then Some(Canceled)
    else Some(DeadlineExceeded)
  }

  /** Once a context is done it stays done, with the same error. */
  lemma ErrIsStable(ctx: Context, t: Time, t': Time)
    requires Done(ctx, t) && t <= t'
    ensures Done(ctx, t') && CtxErr(ctx, t') == CtxErr(ctx, t)
  {
  }

  /** The rule at the top of Save and Get: a context without a deadline gets
      one opTimeOut after `now`; a context with a deadline is kept as it is. */
  function WithDefaultTimeout(ctx: Context, now: Time, opTimeOut: nat): (eff: Context)
    ensures eff.deadline.Some?
    ensures ctx.deadline.Some? ==> eff == ctx
    ensures ctx.deadline.None? ==> eff.canceledAt == ctx.canceledAt
    ensures ctx.deadline.None? ==>
      forall t :: Done(eff, t) <==> Done(ctx, t) || now + opTimeOut <= t
  {
    if ctx.deadline.None? then Context(Some(now + opTimeOut), ctx.canceledAt) else ctx
  }

  /** No operation waits without bound: the effective context is done by the
      caller's own deadline, or opTimeOut after the call when it had none. */
  lemma BoundedWait(ctx: Context, now: Time, opTimeOut: nat)
    ensures Done(WithDefaultTimeout(ctx, now, opTimeOut),
                 if ctx.deadline.Some? then ctx.deadline.value else now + opTimeOut)
  {
  }

  /** A context that is never cancelled and has no deadline ends only by the
      default timeout, and then reports DeadlineExceeded. */
  lemma DefaultTimeoutReportsDeadline(ctx: Context, now: Time, opTimeOut: nat, t: Time)
    requires ctx == Context(None, None)
    ensures Done(WithDefaultTimeout(ctx, now, opTimeOut), t) <==> now + opTimeOut <= t
    ensures Done(WithDefaultTimeout(ctx, now, opTimeOut), t) ==>
      CtxErr(WithDefaultTimeout(ctx, now, opTimeOut), t) == Some(DeadlineExceeded)
  {
  }

  // ---------------------------------------------------------------------------
  // Hand-offs
  // ---------------------------------------------------------------------------

  /** The three blocking exchanges between a caller and the owner. */
  datatype HandOff = Submission | PayloadDelivery | ResultDelivery

  function Order(h: HandOff): nat {
    match h
    case Submission => 0
    case PayloadDelivery => 1
    case ResultDelivery => 2
  }

  /** How one request's races ended: every hand-off completed, or the
      context won the race at hand-off `at`, at time `time`. */
  datatype Interruption = Uninterrupted | CutAt(at: HandOff, time: Time)

  /** Whether hand-off `h` completed. */
  predicate Completes(cut: Interruption, h: HandOff) {
    cut.Uninterrupted? || Order(h) < Order(cut.at)
  }

  /** The outcomes the runtime can produce for a request issued at `now` whose
      effective context is `eff`. The context can only win a race once it is
      done. A `select` with a ready case never blocks, and a send on an
      unbuffered channel needs a blocked partner; so when the context is
      already done at `now`, the submission may still go through (the owner is
      blocked waiting for requests and Go picks among ready cases at random),
      but the payload hand-off cannot, since both parties reach their `select`
      with Done ready. */
  predicate Admissible(eff: Context, now: Time, cut: Interruption) {
    && (cut.CutAt? ==> now <= cut.time && Done(eff, cut.time))
    && (Done(eff, now) ==> cut.CutAt? && cut.at != ResultDelivery)
  }

  /** Every context admits some outcome, so the constraint only describes the
      scheduler, never the caller. */
  lemma AdmissibleExists(eff: Context, now: Time)
    ensures Admissible(eff, now, if Done(eff, now) then CutAt(Submission, now) else Uninterrupted)
  {
  }

  /** A deadline already in the past fails the request with DeadlineExceeded
      before its payload is delivered. */
  lemma ExpiredDeadlineFailsEarly(ctx: Context, now: Time, opTimeOut: nat, cut: Interruption)
    requires ctx.deadline.Some? && ctx.deadline.value <= now && ctx.canceledAt.None?
    requires Admissible(WithDefaultTimeout(ctx, now, opTimeOut), now, cut)
    ensures !Completes(cut, PayloadDelivery)
    ensures CtxErr(WithDefaultTimeout(ctx, now, opTimeOut), cut.time) == Some(DeadlineExceeded)
  {
  }

  // ---------------------------------------------------------------------------
  // The owner's lookup
  // ---------------------------------------------------------------------------

  /** What the owner sends back: an id, the score if any, the error if any. */
  datatype Payload = Payload(id: Uuid, data: Option<Points>, err: Option<Error>)

  /** The zero payload, which a receive on a closed channel yields. */
  const ZeroPayload: Payload := Payload(Nil, None, None)

  /** The decision in Engine.get: the Nil id is refused before the map is
      consulted, a missing id is an error rather than a zero score, and a
      present id yields a copy of its score. */
  function Lookup(storage: map<Uuid, Points>, id: Uuid): (p: Payload)
    ensures p.id == id
    ensures p.data.Some? <==> id != Nil && id in storage
    ensures p.data.Some? ==> p.data.value == storage[id] && p.err.None?
    ensures p.data.None? ==> p.err.Some?
    ensures p.err == Some(ErrInvalidId) <==> id == Nil
    ensures p.err == Some(ErrNotFound) <==> id != Nil && id !in storage
  {
    if id == Nil then Payload(id, None, Some(ErrInvalidId))
    else if id !in storage then Payload(id, None, Some(ErrNotFound))
    else Payload(id, Some(storage[id]), None)
  }

  /** The Nil id is refused whatever the map holds: no lookup takes place. */
  lemma LookupNilIgnoresStorage(m: map<Uuid, Points>, m': map<Uuid, Points>)
    ensures Lookup(m, Nil) == Lookup(m', Nil)
  {
  }

  /** Reading back a stored score returns it; storing under one id changes no
      lookup of any other id. */
  lemma LookupAfterStore(m: map<Uuid, Points>, id: Uuid, v: Points, other: Uuid)
    requires id != Nil
    ensures Lookup(m[id := v], id) == Payload(id, Some(v), None)
    ensures other != id ==> Lookup(m[id := v], other) == Lookup(m, other)
  {
  }

  // ---------------------------------------------------------------------------
  // The engine
  // ---------------------------------------------------------------------------

  class Engine {
    /** The `storage` map, touched only by the owner. */
    var storage: map<Uuid, Points>
    /** opTimeOut: the deadline applied to a caller that has none. */
    var opTimeOut: nat
    /** The identifier source standing for uuid.New(): the last id handed out. */
    var lastId: Uuid

    /** Every stored id is a non-Nil id the generator has handed out. */
    ghost predicate Valid()
      reads this
    {
      && Nil !in storage
      && forall id :: id in storage ==> id <= lastId
    }

    /** New followed by start: the default timeout and an empty map. */
    constructor ()
      ensures Valid()
      ensures storage == map[] && opTimeOut == DefaultTimeOut
    {
      storage := map[];
      opTimeOut := DefaultTimeOut;
      lastId := Nil;
    }

    /** uuid.New(): a non-Nil id that nothing is stored under. */
    method NewId() returns (id: Uuid)
      requires Valid()
      modifies this`lastId
      ensures Valid()
      ensures id != Nil && id !in storage && id == lastId == old(lastId) + 1
    {
      lastId := lastId + 1;
      id := lastId;
    }

    /** Engine.save, the owner's half of a write. `payload` is what the payload
        hand-off delivered, None when the context won it. The reply is what the
        caller's receive on the result channel yields; it does not depend on
        whether the acknowledgement or Done wins the result hand-off. */
    method ServeSave(payload: Option<Payload>) returns (reply: Option<Payload>)
      requires Valid()
      requires payload.Some? ==>
        payload.value.data.Some? && payload.value.id != Nil && payload.value.id <= lastId
      modifies this`storage
      ensures Valid()
      ensures payload.None? ==> storage == old(storage) && reply.None?
      ensures payload.Some? ==>
        && storage == old(storage)[payload.value.id := payload.value.data.value]
        && reply == Some(ZeroPayload)
    {
      if payload.None? {
        // The context was done first: return without touching the map.
        return None;
      }
      var data := payload.value;
      storage := storage[data.id := data.data.value];
      // The acknowledgement is the zero payload, and the result channel is
      // closed on return, so the caller's receive yields the zero payload
      // whether or not the acknowledgement got through.
      reply := Some(ZeroPayload);
    }

    /** Engine.get, the owner's half of a read. */
    method ServeGet(payload: Option<Payload>, resultCut: bool) returns (reply: Option<Payload>)
      ensures payload.None? ==> reply.None?
      ensures payload.Some? && resultCut ==> reply == Some(ZeroPayload)
      ensures payload.Some? && !resultCut ==> reply == Some(Lookup(storage, payload.value.id))
    {
      if payload.None? {
        return None;
      }
      var pload := Lookup(storage, payload.value.id);
      if resultCut {
        // The deferred send lost to Done; the deferred close makes the
        // caller's receive yield the zero payload.
        reply := Some(ZeroPayload);
      } else {
        reply := Some(pload);
      }
    }

    /** Engine.Save. */
    method Save(ctx: Context, now: Time, cut: Interruption, receipt: Points) returns (id: Uuid, err: Option<Error>)
      requires Valid()
      requires Admissible(WithDefaultTimeout(ctx, now, opTimeOut), now, cut)
      modifies this
      ensures Valid() && opTimeOut == old(opTimeOut) && lastId == old(lastId) + 1
      ensures !Completes(cut, PayloadDelivery) ==>
        && id == Nil
        && err == CtxErr(WithDefaultTimeout(ctx, now, opTimeOut), cut.time) && err.Some?
        && storage == old(storage)
      ensures Completes(cut, PayloadDelivery) ==>
        && id != Nil && err.None?
        && id !in old(storage)
        && storage == old(storage)[id := receipt]
    {
      var eff := WithDefaultTimeout(ctx, now, opTimeOut);
      var newId := NewId();
      if cut.CutAt? && cut.at == Submission {
        return Nil, CtxErr(eff, cut.time);
      }
      if cut.CutAt? && cut.at == PayloadDelivery {
        // The owner's receive of the payload loses to Done as well, and it
        // returns without touching the map.
        return Nil, CtxErr(eff, cut.time);
      }
      var _ := ServeSave(Some(Payload(newId, Some(receipt), None)));
      return newId, None;
    }

    /** Engine.Get. */
    method Get(ctx: Context, now: Time, cut: Interruption, id: Uuid) returns (data: Option<Points>, err: Option<Error>)
      requires Valid()
      requires Admissible(WithDefaultTimeout(ctx, now, opTimeOut), now, cut)
      ensures cut.CutAt? && cut.at == Submission ==> data.None? && err == Some(ErrTimeOut)
      ensures cut.CutAt? && cut.at == PayloadDelivery ==>
        data.None? && err == CtxErr(WithDefaultTimeout(ctx, now, opTimeOut), cut.time) && err.Some?
      ensures cut.CutAt? && cut.at == ResultDelivery ==> data.None? && err.None?
      ensures cut.Uninterrupted? ==>
        && (data.Some? <==> id != Nil && id in storage)
        && (data.Some? ==> data.value == storage[id] && err.None?)
        && (id == Nil ==> err == Some(ErrInvalidId))
        && (id != Nil && id !in storage ==> err == Some(ErrNotFound))
    {
      var eff := WithDefaultTimeout(ctx, now, opTimeOut);
      if cut.CutAt? && cut.at == Submission {
        return None, Some(ErrTimeOut);
      }
      if cut.CutAt? && cut.at == PayloadDelivery {
        // The owner's receive of the payload loses to Done as well, and it
        // returns without sending a reply.
        return None, CtxErr(eff, cut.time);
      }
      var reply := ServeGet(Some(Payload(id, None, None)), cut.CutAt?);
      return reply.value.data, reply.value.err;
    }
  }

  // ---------------------------------------------------------------------------
  // What callers can rely on (the scenarios of the store's tests)
  // ---------------------------------------------------------------------------

  /** A score saved without interruption is read back, and an id that was
      never handed out is reported missing rather than read as zero. */
  method SaveThenGet(e: Engine, ctx: Context, now: Time, value: Points, unused: Uuid)
    returns (id: Uuid, got: Option<Points>, err: Option<Error>, missing: Option<Points>, missErr: Option<Error>)
    requires e.Valid() && unused > e.lastId + 1
    requires !Done(WithDefaultTimeout(ctx, now, e.opTimeOut), now)
    modifies e
    ensures e.Valid()
    ensures id != Nil && got == Some(value) && err.None?
    ensures missing.None? && missErr == Some(ErrNotFound)
  {
    var saveErr;
    id, saveErr := e.Save(ctx, now, Uninterrupted, value);
    got, err := e.Get(ctx, now, Uninterrupted, id);
    missing, missErr := e.Get(ctx, now, Uninterrupted, unused);
  }

  /** A caller whose deadline has passed fails with DeadlineExceeded and leaves
      the map as it was; the store then serves the next caller normally. */
  method ExpiredThenFresh(e: Engine, expired: Context, live: Context, now: Time, cut: Interruption, value: Points)
    returns (err1: Option<Error>, id2: Uuid, err2: Option<Error>)
    requires e.Valid()
    requires expired.deadline.Some? && expired.deadline.value <= now && expired.canceledAt.None?
    requires Admissible(WithDefaultTimeout(expired, now, e.opTimeOut), now, cut)
    requires !Done(WithDefaultTimeout(live, now, e.opTimeOut), now)
    modifies e
    ensures err1 == Some(DeadlineExceeded)
    ensures id2 != Nil && err2.None? && e.storage == old(e.storage)[id2 := value]
  {
    ExpiredDeadlineFailsEarly(expired, now, e.opTimeOut, cut);
    var id1;
    id1, err1 := e.Save(expired, now, cut, value);
    id2, err2 := e.Save(live, now, Uninterrupted, value);
  }
}
