/**
 * The idempotency guard: a POST carrying an `Idempotency-Key` header is answered
 * from the store when an unexpired record exists for the key; otherwise the
 * request reaches the handler and, on a miss, the handler's JSON response is
 * captured into the store (first writer wins). A sweep removes expired records.
 *
 * The store is a map from key to record; "now" is a parameter, in milliseconds.
 */
module Idempotency {
  import opened Wrappers
  import opened JsValue
  import opened Errors

  /** `expiresAt.setHours(expiresAt.getHours() + 24)`, in milliseconds. */
  const TTL: int := 24 * 60 * 60 * 1000

  /** The longest key the guard accepts. */
  const MAX_KEY_LENGTH: int := 255

  /** A stored response: its status, its body (as serialised) and when it expires. */
  datatype Record = Record(status: int, body: string, expiresAt: int)

  type Store = map<string, Record>

  /** What the guard does with a request. */
  datatype Decision =
    | PassThrough                          // next(), the response is not captured
    | PassThroughArmed(key: string)        // next(), with res.json wrapped to capture under `key`
    | Replay(status: int, body: string)    // res.status(status).json(body), the handler does not run
    | Reject(error: AppError)              // throw new ValidationError(...)

  datatype GuardStep = GuardStep(decision: Decision, store: Store)

  /** A JSON response written by a handler. */
  datatype Response = Response(status: int, body: string)

  /** One request through guard, handler and capture. */
  datatype Served = Served(response: Result<Response, AppError>, handlerRan: bool, store: Store)

  /** Both expiry tests of the source are strict: `new Date() > expiresAt` and `expiresAt < new Date()`. */
  predicate Expired(r: Record, now: int) {
    r.expiresAt < now
  }

  /** `!idempotencyKey`: the header is absent or the empty string. */
  predicate NoKey(header: Option<string>) {
    header.None? || header.value == ""
  }

  const MALFORMED_KEY := "Header Idempotency-Key inválido"
  const KEY_TOO_LONG := "Header Idempotency-Key muito longo (máximo 255 caracteres)"

  /** The validation of a present, non-empty key. */
  function KeyError(key: string): (e: Option<AppError>)
    ensures e.Some? <==> IsBlank(key) || |key| > MAX_KEY_LENGTH
    ensures e.Some? ==> e.value.statusCode == 400 && e.value.cls == ValidationErrorClass
  {
    if IsBlank(key) then Some(NewError(ValidationErrorClass, Some(MALFORMED_KEY), None, None))
    else if |key| > MAX_KEY_LENGTH then Some(NewError(ValidationErrorClass, Some(KEY_TOO_LONG), None, None))
    else None
  }

  /** A key the guard looks up: non-empty, not blank, at most 255 characters. */
  predicate UsableKey(key: string) {
    key != "" && KeyError(key).None?
  }

  /** `next` only removes records; it never adds or rewrites one. */
  predicate OnlyRemoves(store: Store, next: Store) {
    next.Keys <= store.Keys && forall k | k in next :: next[k] == store[k]
  }

  /** `next` keeps every record of `store` unchanged (it may add records). */
  predicate KeepsAll(store: Store, next: Store) {
    store.Keys <= next.Keys && forall k | k in store :: next[k] == store[k]
  }

  /** The decision `idempotencyMiddleware` takes, and the store afterwards. */
  function GuardSpec(store: Store, httpMethod: string, header: Option<string>, now: int): (s: GuardStep)
    ensures OnlyRemoves(store, s.store)
    ensures s.store != store ==> header.Some? && s.store == store - {header.value}
    ensures s.decision.Replay? ==>
      && header.Some? && header.value in store && !Expired(store[header.value], now)
      && s.decision == Replay(store[header.value].status, store[header.value].body)
      && s.store == store
    ensures s.decision.PassThroughArmed? ==>
      header == Some(s.decision.key) && UsableKey(s.decision.key) && s.decision.key !in store && s.store == store
    ensures s.decision.Reject? ==> s.store == store && s.decision.error.statusCode == 400
  {
    if httpMethod != "POST" || NoKey(header) then
      GuardStep(PassThrough, store)
    else
      var key := header.value;
      match KeyError(key)
      case Some(e) => GuardStep(Reject(e), store)
      case None =>
        if key !in store then
          GuardStep(PassThroughArmed(key), store)
        else if Expired(store[key], now) then
          GuardStep(PassThrough, store - {key})
        else
          GuardStep(Replay(store[key].status, store[key].body), store)
  }

  /** `storeIdempotencyKey`: create the record unless the key exists (duplicate-key errors are swallowed). */
  function CaptureSpec(store: Store, key: string, status: int, body: string, now: int): (r: Store)
    ensures KeepsAll(store, r)
    ensures r.Keys == store.Keys + {key}
    ensures key !in store ==> r[key] == Record(status, body, now + TTL)
    ensures |r| == if key in store then |store| else |store| + 1
  {
    if key in store then store else store[key := Record(status, body, now + TTL)]
  }

  /** The keys whose records have expired at `now`. */
  function ExpiredKeys(store: Store, now: int): set<string> {
    set k | k in store && Expired(store[k], now)
  }

  /** `cleanupExpiredKeys`: `deleteMany` of the records with `expiresAt < now`. */
  function SweepSpec(store: Store, now: int): (r: Store)
    ensures OnlyRemoves(store, r)
    ensures forall k | k in store :: k in r <==> !Expired(store[k], now)
  {
    map k | k in store && !Expired(store[k], now) :: store[k]
  }

  /** The count the sweep reports is the number of records it removed. */
  lemma SweepCount(store: Store, now: int)
    ensures SweepSpec(store, now).Keys == store.Keys - ExpiredKeys(store, now)
    ensures |SweepSpec(store, now)| == |store| - |ExpiredKeys(store, now)|
  {
    var kept := SweepSpec(store, now).Keys;
    var gone := ExpiredKeys(store, now);
    assert kept == store.Keys - gone;
    assert kept !! gone && kept + gone == store.Keys;
    assert |kept + gone| == |kept| + |gone|;
  }

  /** A request through the guard, the handler (which answers `handler` at time `doneAt`) and the capture wrapper. */
  function Serve(store: Store, httpMethod: string, header: Option<string>, now: int, handler: Response, doneAt: int): Served {
    var g := GuardSpec(store, httpMethod, header, now);
    match g.decision
    case PassThrough => Served(Ok(handler), true, g.store)
    case PassThroughArmed(key) => Served(Ok(handler), true, CaptureSpec(g.store, key, handler.status, handler.body, doneAt))
    case Replay(status, body) => Served(Ok(Response(status, body)), false, g.store)
    case Reject(e) => Served(Err(e), false, g.store)
  }

  // ------------------------------------------------------------------ the guard's decisions

  /** Only POST is guarded: any other method passes through without a lookup. */
  lemma NonPostBypasses(store: Store, httpMethod: string, header: Option<string>, now: int)
    requires httpMethod != "POST"
    ensures GuardSpec(store, httpMethod, header, now) == GuardStep(PassThrough, store)
  {
  }

  /** A missing header, and the empty string (which is falsy), bypass the guard unarmed. */
  lemma MissingOrEmptyKeyBypasses(store: Store, header: Option<string>, now: int)
    requires header == None || header == Some("")
    ensures GuardSpec(store, "POST", header, now) == GuardStep(PassThrough, store)
  {
  }

  /** A non-empty blank key, or one longer than 255 characters, is a 400 before the store is read. */
  lemma MalformedKeyRejected(store: Store, key: string, now: int)
    requires key != "" && (IsBlank(key) || |key| > MAX_KEY_LENGTH)
    ensures var s := GuardSpec(store, "POST", Some(key), now);
      s.decision.Reject? && s.decision.error.statusCode == 400 && s.store == store
  {
  }

  /** The length limit is inclusive: 255 characters are looked up, 256 are rejected. */
  lemma KeyLengthBoundary(store: Store, key: string, now: int)
    requires !IsBlank(key)
    ensures |key| == 255 ==> !GuardSpec(store, "POST", Some(key), now).decision.Reject?
    ensures |key| == 256 ==> GuardSpec(store, "POST", Some(key), now).decision.Reject?
  {
  }

  /** An unexpired hit replays exactly the stored status and body and changes nothing. */
  lemma FreshHitReplays(store: Store, key: string, now: int)
    requires UsableKey(key) && key in store && now <= store[key].expiresAt
    ensures GuardSpec(store, "POST", Some(key), now)
      == GuardStep(Replay(store[key].status, store[key].body), store)
  {
  }

  /** An expired hit removes that record only, and passes through without arming the capture. */
  lemma ExpiredHitDeletesOnlyThatKey(store: Store, key: string, now: int)
    requires UsableKey(key) && key in store && now > store[key].expiresAt
    ensures var s := GuardSpec(store, "POST", Some(key), now);
      && s.decision == PassThrough
      && s.store.Keys == store.Keys - {key}
      && forall k | k in s.store :: s.store[k] == store[k]
  {
  }

  /** A miss arms the capture for the key and leaves the store alone. */
  lemma MissArmsCapture(store: Store, key: string, now: int)
    requires UsableKey(key) && key !in store
    ensures GuardSpec(store, "POST", Some(key), now) == GuardStep(PassThroughArmed(key), store)
  {
  }

  // ------------------------------------------------------------------ capture and sweep

  /** Capturing twice under one key keeps the first capture: the second write is discarded. */
  lemma FirstWriterWins(store: Store, key: string, s1: int, b1: string, t1: int, s2: int, b2: string, t2: int)
    ensures var once := CaptureSpec(store, key, s1, b1, t1);
      CaptureSpec(once, key, s2, b2, t2) == once
  {
  }

  /** The sweep leaves exactly the records that have not expired, each unchanged. */
  lemma SweepKeepsExactlyLive(store: Store, now: int, k: string)
    ensures k in SweepSpec(store, now) <==> k in store && store[k].expiresAt >= now
    ensures k in SweepSpec(store, now) ==> SweepSpec(store, now)[k] == store[k]
  {
  }

  /** After a sweep at `now` a lookup at the same instant never meets an expired record. */
  lemma {:induction false} SweepThenGuardNeverDeletes(store: Store, now: int, key: string)
    requires UsableKey(key)
    ensures var swept := SweepSpec(store, now);
      GuardSpec(swept, "POST", Some(key), now).store == swept
  {
    var swept := SweepSpec(store, now);
    if key in swept {
      assert key in store && !Expired(store[key], now);
      assert swept[key] == store[key];
    }
  }

  // ------------------------------------------------------------------ whole requests

  /**
   * A retry that arrives after the first request completed, and before the captured
   * record expires, gets the first response back and does not run the handler,
   * whatever the retry's own handler would have answered.
   */
  lemma RetryReplaysFirstResponse(store: Store, key: string, t1: int, d1: int, h1: Response,
                                  t2: int, d2: int, h2: Response)
    requires UsableKey(key) && key !in store
    requires t2 <= d1 + TTL
    ensures var r1 := Serve(store, "POST", Some(key), t1, h1, d1);
            var r2 := Serve(r1.store, "POST", Some(key), t2, h2, d2);
      && r1.handlerRan && r1.response == Ok(h1)
      && !r2.handlerRan && r2.response == r1.response && r2.store == r1.store
  {
    var r1 := Serve(store, "POST", Some(key), t1, h1, d1);
    assert r1.store == store[key := Record(h1.status, h1.body, d1 + TTL)];
  }

  /**
   * A request that meets an expired record runs the handler but stores nothing, so
   * the next retry with the same key runs the handler again.
   */
  lemma ExpiredRecordIsNotReplaced(store: Store, key: string, t1: int, d1: int, h1: Response,
                                   t2: int, d2: int, h2: Response)
    requires UsableKey(key) && key in store && t1 > store[key].expiresAt
    ensures var r1 := Serve(store, "POST", Some(key), t1, h1, d1);
            var r2 := Serve(r1.store, "POST", Some(key), t2, h2, d2);
      && r1.handlerRan && key !in r1.store
      && r2.handlerRan && r2.response == Ok(h2)
  {
    var r1 := Serve(store, "POST", Some(key), t1, h1, d1);
    assert r1.store == store - {key};
  }

  /** A request the guard does not apply to leaves the store as it was. */
  lemma BypassKeepsStore(store: Store, httpMethod: string, header: Option<string>, now: int, h: Response, d: int)
    requires httpMethod != "POST" || NoKey(header)
    ensures var r := Serve(store, httpMethod, header, now, h, d);
      r.handlerRan && r.response == Ok(h) && r.store == store
  {
  }

  // ------------------------------------------------------------------ the store object

  /** The database table of idempotency records, updated in place by the guard, the capture and the sweep. */
  class IdempotencyStore {
    var records: Store

    constructor ()
      ensures records == map[]
    {
      records := map[];
    }

    /** `idempotencyMiddleware`: decide, deleting the record on an expired hit. */
    method Guard(httpMethod: string, header: Option<string>, now: int) returns (d: Decision)
      modifies this
      ensures GuardStep(d, records) == GuardSpec(old(records), httpMethod, header, now)
    {
      if httpMethod != "POST" {
        return PassThrough;
      }
      if header.None? || header.value == "" {
        return PassThrough;
      }
      var key := header.value;
      if IsBlank(key) {
        return Reject(NewError(ValidationErrorClass, Some(MALFORMED_KEY), None, None));
      }
      if |key| > MAX_KEY_LENGTH {
        return Reject(NewError(ValidationErrorClass, Some(KEY_TOO_LONG), None, None));
      }
      if key in records {
        var existing := records[key];
        if now > existing.expiresAt {
          records := records - {key};
          return PassThrough;
        }
        return Replay(existing.status, existing.body);
      }
      d := PassThroughArmed(key);
    }

    /** `storeIdempotencyKey`, as run by the `res.json` wrapper. */
    method Capture(key: string, status: int, body: string, now: int)
      modifies this
      ensures records == CaptureSpec(old(records), key, status, body, now)
    {
      if key !in records {
        records := records[key := Record(status, body, now + TTL)];
      }
    }

    /** `cleanupExpiredKeys`: delete every expired record and report how many were deleted. */
    method Sweep(now: int) returns (count: nat)
      modifies this
      ensures records == SweepSpec(old(records), now)
      ensures count == |ExpiredKeys(old(records), now)|
      ensures count == |old(records)| - |records|
    {
      var expired := set k | k in records && records[k].expiresAt < now;
      assert expired == ExpiredKeys(records, now);
      SweepCount(records, now);
      records := map k | k in records && k !in expired :: records[k];
      count := |expired|;
    }

    /**
     * One request: the guard, then (unless it replays or rejects) the handler's
     * response, captured when the guard armed the wrapper.
     */
    method Handle(httpMethod: string, header: Option<string>, now: int, handler: Response, doneAt: int)
      returns (response: Result<Response, AppError>, handlerRan: bool)
      modifies this
      ensures Served(response, handlerRan, records) == Serve(old(records), httpMethod, header, now, handler, doneAt)
    {
      var d := Guard(httpMethod, header, now);
      match d
      case Replay(status, body) =>
        response, handlerRan := Ok(Response(status, body)), false;
      case Reject(e) =>
        response, handlerRan := Err(e), false;
      case PassThrough =>
        response, handlerRan := Ok(handler), true;
      case PassThroughArmed(key) =>
        Capture(key, handler.status, handler.body, doneAt);
        response, handlerRan := Ok(handler), true;
    }
  }
}
