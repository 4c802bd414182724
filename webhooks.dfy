/** The webhook gateway (apps/api/src/routes/webhooks.ts): the two POST
    handlers drop event types they do not handle, consult a time-limited
    ledger of idempotency keys, and hand the payload to the queue when one is
    available or to the processor inline when it is not.

    The module-level `redis` and `webhookQueue` handles, the ledger's
    contents and the queue's contents are the fields of class `Gateway`; the
    store is the `Db` the inline path writes to. What the outside world decides
    (whether importing the queue module succeeds, whether a ledger call throws,
    whether an enqueue throws, the clock) arrives in an `Env`. The handlers'
    effect is given by the function `Handle`, about which the properties are
    proved. */
module Webhooks {
  import opened Common
  import opened Domain
  import opened Store
  import opened Database
  import opened WebhookProcessor

  // ---------------------------------------------------------------- event filters

  /** The Instantly handler only takes `reply_received` and `auto_reply_received`. */
  predicate InstantlyEventAccepted(p: Payload) {
    OrElse(Field(p, "event_type"), "") in ["reply_received", "auto_reply_received"]
  }

  /** The PlusVibe handler only takes the three reply events. */
  predicate PlusVibeEventAccepted(p: Payload) {
    OrElse(Field(p, "webhook_event"), "") in ["ALL_EMAIL_REPLIES", "FIRST_EMAIL_REPLIES", "ALL_POSITIVE_REPLIES"]
  }

  // ------------------------------------------------------------ idempotency keys

  /** `instantly:${timestamp}:${lead_email}:${campaign_id}:${email_id}`. */
  function InstantlyKey(p: Payload): string {
    "instantly:" + RenderField(p, "timestamp") + ":" + RenderField(p, "lead_email") + ":" +
    RenderField(p, "campaign_id") + ":" + RenderField(p, "email_id")
  }

  /** `plusvibe:${webhook_id}`. */
  function PlusVibeKey(p: Payload): string {
    "plusvibe:" + RenderField(p, "webhook_id")
  }

  // ---------------------------------------------------------------------- ledger

  /** The ledger's expiry, `IDEMPOTENCY_TTL` seconds, in the milliseconds of `Time`. */
  const IdempotencyTtl: nat := 86400
  const TtlMillis: nat := IdempotencyTtl * 1000

  /** The Redis key a webhook key is stored under. */
  function LedgerKey(key: string): string {
    "webhook:id:" + key
  }

  /** The ledger maps each stored key to the instant it expires; an entry whose
      expiry has passed is as good as absent. */
  predicate Live(ledger: map<string, Time>, ledgerKey: string, now: Time) {
    ledgerKey in ledger && now < ledger[ledgerKey]
  }

  /** Whether a ledger call throws: the `get`, or the `setex` after it. */
  datatype LedgerFault = NoFault | GetFails | SetFails

  /** checkIdempotency: (is duplicate, ledger afterwards). With no Redis handle,
      or when a call throws, the answer is "not a duplicate". */
  function LedgerCheck(redisReady: bool, ledger: map<string, Time>, key: string, now: Time, fault: LedgerFault)
    : (r: (bool, map<string, Time>))
    ensures r.0 ==> r.1 == ledger
    ensures r.1 == ledger || r.1 == ledger[LedgerKey(key) := now + TtlMillis]
  {
    var lk := LedgerKey(key);
    if !redisReady || fault == GetFails then (false, ledger)
    else if Live(ledger, lk, now) then (true, ledger)
    else if fault == SetFails then (false, ledger)
    else (false, ledger[lk := now + TtlMillis])
  }

  // ---------------------------------------------------------------------- state

  /** One `webhookQueue.add(name, data)`. */
  datatype Job = Job(name: string, payload: Payload)

  /** The gateway's module-level state as a value. */
  datatype GatewayState = GatewayState(redisReady: bool, queueReady: bool, ledger: map<string, Time>, jobs: seq<Job>)

  /** Both handles are assigned together, so one is set exactly when the other is. */
  predicate GatewayValid(g: GatewayState) {
    g.redisReady == g.queueReady
  }

  /** The state when the API process starts: no handles and nothing queued,
      while the ledger holds whatever Redis kept from earlier processes. */
  function StartState(ledger0: map<string, Time>): (g: GatewayState)
    ensures GatewayValid(g) && !g.redisReady && !g.queueReady && g.ledger == ledger0 && g.jobs == []
  {
    GatewayState(false, false, ledger0, [])
  }

  /** What the environment decides during one request. */
  datatype Env = Env(now: Time, parseDate: string -> Option<Time>, importOk: bool, ledgerFault: LedgerFault, enqueueOk: bool)

  /** The JSON acknowledgement `{received: true}`, plus `duplicate: true` on a
      hit. Every path, the caught exceptions included, answers with status
      200, so the status is not a field. */
  datatype Response = Response(duplicate: bool)

  /** initQueue: nothing once a queue is set; otherwise both handles are set
      when the import succeeds and neither when it throws. */
  function InitQueueStep(g: GatewayState, importOk: bool): (r: GatewayState)
    ensures r.ledger == g.ledger && r.jobs == g.jobs
    ensures r.queueReady <==> g.queueReady || importOk
    ensures GatewayValid(g) ==> GatewayValid(r)
  {
    if g.queueReady then g
    else if importOk then g.(redisReady := true, queueReady := true)
    else g
  }

  /** processWebhook: the queue if there is one (an `add` that throws queues
      nothing), otherwise the processor inline. */
  function Dispatch(g: GatewayState, t: Tables, platform: string, p: Payload, env: Env): (r: (GatewayState, Tables))
    ensures r.0.ledger == g.ledger
    ensures r.0.jobs == g.jobs || r.0.jobs == g.jobs + [Job(platform, p)]
    ensures r.0.jobs != g.jobs ==> r.1 == t
  {
    var g1 := InitQueueStep(g, env.importOk);
    if g1.queueReady then
      if env.enqueueOk then (g1.(jobs := g1.jobs + [Job(platform, p)]), t) else (g1, t)
    else (g1, ProcessJob(t, platform, p, env.now, env.parseDate))
  }

  /** One POST: filter, key lookup, dispatch. */
  function Handle(g: GatewayState, t: Tables, platform: string, accepted: bool, key: string, p: Payload, env: Env)
    : (r: (GatewayState, Tables, Response))
    ensures r.0.jobs == g.jobs || r.0.jobs == g.jobs + [Job(platform, p)]
    ensures r.2.duplicate ==> r.1 == t && r.0.jobs == g.jobs
    ensures !accepted ==> r.0.ledger == g.ledger
  {
    if !accepted then (g, t, Response(false))
    else
      var (duplicate, ledger) := LedgerCheck(g.redisReady, g.ledger, key, env.now, env.ledgerFault);
      var g1 := g.(ledger := ledger);
      if duplicate then (g1, t, Response(true))
      else
        var (g2, t2) := Dispatch(g1, t, platform, p, env);
        (g2, t2, Response(false))
  }

  function HandleInstantly(g: GatewayState, t: Tables, p: Payload, env: Env): (GatewayState, Tables, Response) {
    Handle(g, t, "instantly", InstantlyEventAccepted(p), InstantlyKey(p), p, env)
  }

  function HandlePlusVibe(g: GatewayState, t: Tables, p: Payload, env: Env): (GatewayState, Tables, Response) {
    Handle(g, t, "plusvibe", PlusVibeEventAccepted(p), PlusVibeKey(p), p, env)
  }

  // ------------------------------------------------------------------ the class

  class Gateway {
    var redisReady: bool
    var queueReady: bool
    var ledger: map<string, Time>
    var jobs: seq<Job>

    function State(): GatewayState
      reads this
    {
      GatewayState(redisReady, queueReady, ledger, jobs)
    }

    /** The gateway of a freshly started process over the ledger Redis kept. */
    constructor (ledger0: map<string, Time>)
      ensures State() == StartState(ledger0)
    {
      redisReady := false;
      queueReady := false;
      ledger := ledger0;
      jobs := [];
    }

    method InitQueue(importOk: bool)
      modifies this
      ensures State() == InitQueueStep(old(State()), importOk)
    {
      if queueReady {
        return;
      }
      if importOk {
        redisReady := true;
        queueReady := true;
      }
    }

    method CheckIdempotency(key: string, now: Time, fault: LedgerFault) returns (duplicate: bool)
      modifies this
      ensures (duplicate, ledger) == LedgerCheck(old(redisReady), old(ledger), key, now, fault)
      ensures redisReady == old(redisReady) && queueReady == old(queueReady) && jobs == old(jobs)
    {
      if !redisReady {
        return false;
      }
      var lk := LedgerKey(key);
      if fault == GetFails {
        return false;
      }
      if lk in ledger && now < ledger[lk] {
        return true;
      }
      if fault == SetFails {
        return false;
      }
      ledger := ledger[lk := now + TtlMillis];
      return false;
    }

    /** Returns whether the enqueue or the inline processor threw (the
        handler catches both). */
    method ProcessWebhook(db: Db, platform: string, p: Payload, env: Env) returns (threw: bool)
      requires db.Valid()
      modifies this, db
      ensures db.Valid()
      ensures (State(), db.Snapshot()) == Dispatch(old(State()), old(db.Snapshot()), platform, p, env)
      ensures var queued := InitQueueStep(old(State()), env.importOk).queueReady;
              threw <==> (queued && !env.enqueueOk) || (!queued && JobThrows(platform, p, env.now, env.parseDate))
    {
      InitQueue(env.importOk);
      threw := false;
      if queueReady {
        if env.enqueueOk {
          jobs := jobs + [Job(platform, p)];
        } else {
          threw := true;
        }
      } else {
        threw := ProcessWebhookJob(db, platform, p, env.now, env.parseDate);
      }
    }

    method PostInstantly(db: Db, payload: Payload, env: Env) returns (res: Response)
      requires db.Valid()
      modifies this, db
      ensures db.Valid()
      ensures (State(), db.Snapshot(), res) == HandleInstantly(old(State()), old(db.Snapshot()), payload, env)
    {
      if !InstantlyEventAccepted(payload) {
        return Response(false);
      }
      var idempotencyKey := InstantlyKey(payload);
      var duplicate := CheckIdempotency(idempotencyKey, env.now, env.ledgerFault);
      if duplicate {
        return Response(true);
      }
      var _ := ProcessWebhook(db, "instantly", payload, env);
      return Response(false);
    }

    method PostPlusVibe(db: Db, payload: Payload, env: Env) returns (res: Response)
      requires db.Valid()
      modifies this, db
      ensures db.Valid()
      ensures (State(), db.Snapshot(), res) == HandlePlusVibe(old(State()), old(db.Snapshot()), payload, env)
    {
      if !PlusVibeEventAccepted(payload) {
        return Response(false);
      }
      var idempotencyKey := PlusVibeKey(payload);
      var duplicate := CheckIdempotency(idempotencyKey, env.now, env.ledgerFault);
      if duplicate {
        return Response(true);
      }
      var _ := ProcessWebhook(db, "plusvibe", payload, env);
      return Response(false);
    }
  }

  // ------------------------------------------------------------------ properties

  /** The Instantly allow-list, both ways. */
  lemma InstantlyEventFilter(p: Payload)
    ensures InstantlyEventAccepted(p) <==>
              Field(p, "event_type") == Some("reply_received") || Field(p, "event_type") == Some("auto_reply_received")
  {
  }

  /** The PlusVibe allow-list, both ways. */
  lemma PlusVibeEventFilter(p: Payload)
    ensures PlusVibeEventAccepted(p) <==>
              || Field(p, "webhook_event") == Some("ALL_EMAIL_REPLIES")
              || Field(p, "webhook_event") == Some("FIRST_EMAIL_REPLIES")
              || Field(p, "webhook_event") == Some("ALL_POSITIVE_REPLIES")
  {
  }

  /** A dropped event type is acknowledged and touches neither the ledger,
      the queue nor the store. */
  lemma IgnoredEventTouchesNothing(g: GatewayState, t: Tables, p: Payload, env: Env)
    ensures !InstantlyEventAccepted(p) ==> HandleInstantly(g, t, p, env) == (g, t, Response(false))
    ensures !PlusVibeEventAccepted(p) ==> HandlePlusVibe(g, t, p, env) == (g, t, Response(false))
  {
  }

  /** Keys of the two platforms never collide: they differ in their second character. */
  lemma KeysOfPlatformsDiffer(p1: Payload, p2: Payload)
    ensures InstantlyKey(p1) != PlusVibeKey(p2)
    ensures LedgerKey(InstantlyKey(p1)) != LedgerKey(PlusVibeKey(p2))
  {
    assert InstantlyKey(p1)[1] == 'n' && PlusVibeKey(p2)[1] == 'l';
    assert LedgerKey(InstantlyKey(p1))[12] == 'n' && LedgerKey(PlusVibeKey(p2))[12] == 'l';
  }

  /** Two PlusVibe deliveries share a key exactly when their webhook_id renders
      alike; in particular every delivery without a webhook_id shares one key. */
  lemma PlusVibeKeyDeterminedByWebhookId(p1: Payload, p2: Payload)
    ensures PlusVibeKey(p1) == PlusVibeKey(p2) <==> RenderField(p1, "webhook_id") == RenderField(p2, "webhook_id")
  {
    if PlusVibeKey(p1) == PlusVibeKey(p2) {
      assert RenderField(p1, "webhook_id") == PlusVibeKey(p1)[9..] == PlusVibeKey(p2)[9..]
          == RenderField(p2, "webhook_id");
    }
  }

  /** The Instantly key leaves out event_type and every body field: a
      reply_received and an auto_reply_received event about the same email at
      the same timestamp share one key. */
  lemma InstantlyKeyIgnoresEventType(p: Payload, eventType: Json, other: string, value: Json)
    requires other !in {"timestamp", "lead_email", "campaign_id", "email_id"}
    ensures InstantlyKey(p["event_type" := eventType]) == InstantlyKey(p)
    ensures InstantlyKey(p[other := value]) == InstantlyKey(p)
  {
    assert RenderField(p["event_type" := eventType], "timestamp") == RenderField(p, "timestamp");
    assert RenderField(p["event_type" := eventType], "lead_email") == RenderField(p, "lead_email");
    assert RenderField(p["event_type" := eventType], "campaign_id") == RenderField(p, "campaign_id");
    assert RenderField(p["event_type" := eventType], "email_id") == RenderField(p, "email_id");
    assert RenderField(p[other := value], "timestamp") == RenderField(p, "timestamp");
    assert RenderField(p[other := value], "lead_email") == RenderField(p, "lead_email");
    assert RenderField(p[other := value], "campaign_id") == RenderField(p, "campaign_id");
    assert RenderField(p[other := value], "email_id") == RenderField(p, "email_id");
  }

  /** First sight: with a working ledger and no live entry, the answer is "not
      a duplicate" and the key is recorded for exactly the TTL. */
  lemma LedgerRecordsFirstSight(ledger: map<string, Time>, key: string, now: Time)
    requires !Live(ledger, LedgerKey(key), now)
    ensures LedgerCheck(true, ledger, key, now, NoFault) == (false, ledger[LedgerKey(key) := now + TtlMillis])
  {
  }

  /** Any later check of the same key before the TTL runs out is a duplicate
      and leaves the ledger alone, unless the `get` itself throws. */
  lemma LedgerSeesRepeatWithinTtl(ledger: map<string, Time>, key: string, n1: Time, n2: Time, fault: LedgerFault)
    requires !Live(ledger, LedgerKey(key), n1)
    requires n1 <= n2 < n1 + TtlMillis && fault != GetFails
    ensures var l1 := LedgerCheck(true, ledger, key, n1, NoFault).1;
            LedgerCheck(true, l1, key, n2, fault) == (true, l1)
  {
  }

  /** Once the TTL has run out, the same key counts as new again. */
  lemma LedgerForgetsAfterTtl(ledger: map<string, Time>, key: string, n1: Time, n2: Time)
    requires !Live(ledger, LedgerKey(key), n1)
    requires n1 + TtlMillis <= n2
    ensures var l1 := LedgerCheck(true, ledger, key, n1, NoFault).1;
            !LedgerCheck(true, l1, key, n2, NoFault).0
  {
  }

  /** The ledger fails open: with no handle, or when the lookup throws, the
      answer is "not a duplicate"; when only the write throws, a new key is
      let through unrecorded. */
  lemma LedgerFailsOpen(redisReady: bool, ledger: map<string, Time>, key: string, now: Time, fault: LedgerFault)
    ensures !redisReady || fault == GetFails ==> LedgerCheck(redisReady, ledger, key, now, fault) == (false, ledger)
    ensures fault == SetFails && !Live(ledger, LedgerKey(key), now) ==>
              LedgerCheck(redisReady, ledger, key, now, fault) == (false, ledger)
  {
  }

  /** The ledger answers "duplicate" exactly for a live key, and only changes
      by recording the checked key. */
  lemma LedgerAnswer(redisReady: bool, ledger: map<string, Time>, key: string, now: Time, fault: LedgerFault)
    ensures var (dup, l) := LedgerCheck(redisReady, ledger, key, now, fault);
            && (dup <==> redisReady && fault != GetFails && Live(ledger, LedgerKey(key), now))
            && (l == ledger || l == ledger[LedgerKey(key) := now + TtlMillis])
  {
  }

  /** A duplicate is acknowledged as one and nothing is dispatched: the
      queue, the store and the handles are as they were. */
  lemma DuplicateDispatchesNothing(g: GatewayState, t: Tables, platform: string, accepted: bool, key: string,
                                   p: Payload, env: Env)
    ensures var (g', t', res) := Handle(g, t, platform, accepted, key, p, env);
            res.duplicate ==>
              && t' == t && g'.jobs == g.jobs && g'.ledger == g.ledger
              && g'.redisReady == g.redisReady && g'.queueReady == g.queueReady
  {
  }

  /** A new accepted event is dispatched exactly once: appended to the queue
      when a queue is (or becomes) available, processed inline when not; an
      enqueue that throws drops it. Nothing else reaches the store. */
  lemma FreshEventDispatchedOnce(g: GatewayState, t: Tables, platform: string, key: string, p: Payload, env: Env)
    requires !LedgerCheck(g.redisReady, g.ledger, key, env.now, env.ledgerFault).0
    ensures var (g', t', res) := Handle(g, t, platform, true, key, p, env);
            var queued := g.queueReady || env.importOk;
            && !res.duplicate
            && (queued && env.enqueueOk ==> g'.jobs == g.jobs + [Job(platform, p)] && t' == t)
            && (queued && !env.enqueueOk ==> g'.jobs == g.jobs && t' == t)
            && (!queued ==> g'.jobs == g.jobs && t' == ProcessJob(t, platform, p, env.now, env.parseDate))
  {
  }

  /** Every path keeps the store and the two handles valid. */
  lemma HandleKeepsValid(g: GatewayState, t: Tables, platform: string, accepted: bool, key: string,
                                 p: Payload, env: Env)
    requires Valid(t) && GatewayValid(g)
    ensures var (g', t', res) := Handle(g, t, platform, accepted, key, p, env);
            Valid(t') && GatewayValid(g')
  {
    if accepted {
      var (duplicate, ledger) := LedgerCheck(g.redisReady, g.ledger, key, env.now, env.ledgerFault);
      var g1 := g.(ledger := ledger);
      if !duplicate && !InitQueueStep(g1, env.importOk).queueReady {
        ProcessJobValid(t, platform, p, env.now, env.parseDate);
      }
    }
  }

  /** The ledger is consulted before the queue module is imported, so the
      first accepted delivery after start-up is never looked up nor recorded,
      whatever the ledger kept from before; an identical second delivery is a
      duplicate exactly when the kept ledger holds the key live, and is
      recorded otherwise. */
  lemma FirstDeliveryIsNotRecorded(ledger0: map<string, Time>, t: Tables, platform: string, key: string, p: Payload,
                                   env1: Env, env2: Env)
    requires env1.importOk && env2.ledgerFault == NoFault
    ensures var (g1, t1, res1) := Handle(StartState(ledger0), t, platform, true, key, p, env1);
            var (g2, t2, res2) := Handle(g1, t1, platform, true, key, p, env2);
            && !res1.duplicate
            && g1.ledger == ledger0
            && g1.redisReady
            && (res2.duplicate <==> Live(ledger0, LedgerKey(key), env2.now))
            && g2.ledger == (if Live(ledger0, LedgerKey(key), env2.now) then ledger0
                             else ledger0[LedgerKey(key) := env2.now + TtlMillis])
  {
  }

  /** With a working ledger, a redelivery of an accepted event within the TTL
      is a duplicate: only the first delivery reaches the queue or the store. */
  lemma RedeliveryWithinTtlIsDuplicate(g: GatewayState, t: Tables, platform: string, key: string,
                                       p: Payload, env1: Env, env2: Env)
    requires g.redisReady && env1.ledgerFault == NoFault && env2.ledgerFault != GetFails
    requires !Live(g.ledger, LedgerKey(key), env1.now)
    requires env1.now <= env2.now < env1.now + TtlMillis
    ensures var (g1, t1, res1) := Handle(g, t, platform, true, key, p, env1);
            var (g2, t2, res2) := Handle(g1, t1, platform, true, key, p, env2);
            && !res1.duplicate && res2.duplicate
            && t2 == t1 && g2 == g1
  {
    var (dup, l1) := LedgerCheck(g.redisReady, g.ledger, key, env1.now, env1.ledgerFault);
    assert !dup && l1 == g.ledger[LedgerKey(key) := env1.now + TtlMillis];
    var (g1, t1, res1) := Handle(g, t, platform, true, key, p, env1);
    assert g1.ledger == l1 && g1.redisReady;
  }

  /** The key is recorded before the enqueue: when the enqueue throws, the
      event is acknowledged, nothing is queued or stored, and a redelivery
      within the TTL is then dropped as a duplicate. */
  lemma EnqueueFailureLosesEvent(g: GatewayState, t: Tables, platform: string, key: string,
                                 p: Payload, env1: Env, env2: Env)
    requires g.redisReady && g.queueReady && env1.ledgerFault == NoFault && !env1.enqueueOk
    requires env2.ledgerFault != GetFails
    requires !Live(g.ledger, LedgerKey(key), env1.now)
    requires env1.now <= env2.now < env1.now + TtlMillis
    ensures var (g1, t1, res1) := Handle(g, t, platform, true, key, p, env1);
            var (g2, t2, res2) := Handle(g1, t1, platform, true, key, p, env2);
            && res1 == Response(false) && t1 == t && g1.jobs == g.jobs
            && res2.duplicate && t2 == t && g2.jobs == g.jobs
  {
    RedeliveryWithinTtlIsDuplicate(g, t, platform, key, p, env1, env2);
  }
}
