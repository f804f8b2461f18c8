/** The plan routes (services/ai-orchestrator/src/routes/plan.ts): `POST
    /api/plan` stages a prompt under a fresh id, and `GET
    /api/stream/:planId` streams the plan once. Staged plans live in a
    single-use store. */
module Plans {
  import Js
  import RateLimit

  /** A parsed JSON request body. */
  datatype Json = Null | Bool(b: bool) | Num(n: int) | Str(s: string) | Array(items: seq<Json>) | Object(fields: map<string, Json>)

  // ---------------------------------------------------------------- the request schema

  /** `z.enum(names)`. */
  predicate OneOf(v: Json, names: seq<string>) {
    v.Str? && v.s in names
  }

  const SelectionTypes := ["cell", "range", "column", "row"]
  const DocumentTypes := ["calc", "writer", "impress"]

  /** `z.array(z.string())`. */
  predicate StringArray(v: Json) {
    v.Array? && forall i :: 0 <= i < |v.items| ==> v.items[i].Str?
  }

  /** `{ range: string, type: enum }`; other keys are ignored. */
  predicate SelectionOk(v: Json) {
    && v.Object?
    && "range" in v.fields && v.fields["range"].Str?
    && "type" in v.fields && OneOf(v.fields["type"], SelectionTypes)
  }

  /** The `sheetContext` object: every field optional, and checked when present. */
  predicate SheetContextOk(v: Json) {
    && v.Object?
    && ("currentSheet" !in v.fields || v.fields["currentSheet"].Str?)
    && ("selection" !in v.fields || SelectionOk(v.fields["selection"]))
    && ("namedRanges" !in v.fields || StringArray(v.fields["namedRanges"]))
    && ("sheetNames" !in v.fields || StringArray(v.fields["sheetNames"]))
    && ("documentType" !in v.fields || OneOf(v.fields["documentType"], DocumentTypes))
  }

  /** `PlanRequestSchema.safeParse(body).success`. */
  predicate PlanRequestOk(body: Json) {
    && body.Object?
    && "userPrompt" in body.fields && body.fields["userPrompt"].Str? && |body.fields["userPrompt"].s| >= 1
    && ("sheetContext" !in body.fields || SheetContextOk(body.fields["sheetContext"]))
  }

  /** A body with only a prompt is accepted exactly when the prompt is not
      empty; a missing prompt, or one that is not a string, is refused. */
  lemma PromptRequired(body: Json, prompt: string)
    ensures PlanRequestOk(Object(map["userPrompt" := Str(prompt)])) <==> prompt != ""
    ensures body.Object? && ("userPrompt" !in body.fields || !body.fields["userPrompt"].Str?) ==> !PlanRequestOk(body)
  {
  }

  /** A `sheetContext` with a selection type or document type outside the
      lists is refused, whatever else it holds. */
  lemma ContextEnums(body: Json)
    requires body.Object? && "sheetContext" in body.fields && body.fields["sheetContext"].Object?
    ensures var c := body.fields["sheetContext"].fields;
      ("selection" in c && c["selection"].Object? && "type" in c["selection"].fields
       && !OneOf(c["selection"].fields["type"], SelectionTypes)) ==> !PlanRequestOk(body)
    ensures var c := body.fields["sheetContext"].fields;
      "documentType" in c && !OneOf(c["documentType"], DocumentTypes) ==> !PlanRequestOk(body)
  {
  }

  // ---------------------------------------------------------------- the store

  datatype PlanRecord = PlanRecord(id: string, prompt: string, createdAt: int, consumed: bool)

  /** `PlanStore`; `issued` holds every id handed out so far. */
  class PlanStore {
    var plans: map<string, PlanRecord>
    ghost var issued: set<string>

    /** Each record is stored under its own id, and every id was issued. */
    ghost predicate Valid()
      reads this
    {
      && plans.Keys <= issued
      && forall id :: id in plans ==> plans[id].id == id
    }

    /** No stored record is consumed: `markConsumed` removes what it flags. */
    predicate NoneConsumed()
      reads this
    {
      forall id :: id in plans ==> !plans[id].consumed
    }

    constructor ()
      ensures plans == map[] && issued == {} && Valid() && NoneConsumed()
    {
      plans := map[];
      issued := {};
    }

    /** `create(prompt)` under the fresh id `id`, at time `now`. */
    method Create(prompt: string, id: string, now: int) returns (rec: PlanRecord)
      requires Valid() && id !in issued
      modifies this
      ensures Valid() && (old(NoneConsumed()) ==> NoneConsumed())
      ensures rec == PlanRecord(id, prompt, now, false) && id !in old(plans)
      ensures plans == old(plans)[id := rec] && issued == old(issued) + {id}
    {
      rec := PlanRecord(id, prompt, now, false);
      plans := plans[id := rec];
      issued := issued + {id};
    }

    /** `get(id)`. */
    method Get(id: string) returns (r: Js.Option<PlanRecord>)
      ensures r.Some? <==> id in plans
      ensures r.Some? ==> r.value == plans[id]
    {
      if id in plans {
        r := Js.Some(plans[id]);
      } else {
        r := Js.None;
      }
    }

    /** `markConsumed(id)`: flags the record and deletes it in the same step;
        an unknown id changes nothing. */
    method MarkConsumed(id: string)
      modifies this
      ensures plans == old(plans) - {id} && issued == old(issued)
      ensures old(Valid()) ==> Valid()
      ensures old(NoneConsumed()) ==> NoneConsumed()
    {
      if id in plans {
        var rec := plans[id].(consumed := true);
        plans := plans[id := rec];
        plans := plans - {id};
      }
    }

    /** Corrected: flags an unconsumed record as consumed and keeps it, so
        that a request arriving while it streams is answered 409; `markConsumed`
        removes it when the stream ends. */
    method Claim(id: string)
      requires id in plans && !plans[id].consumed
      modifies this
      ensures plans == old(plans)[id := old(plans)[id].(consumed := true)] && issued == old(issued)
      ensures old(Valid()) ==> Valid()
    {
      plans := plans[id := plans[id].(consumed := true)];
    }
  }

  // ---------------------------------------------------------------- the routes

  /** The answers of `POST /api/plan`. */
  datatype PostResponse = TooManyRequests(retryAfter: int) | BadRequest | Accepted(planId: string)

  /** How `planFromPrompt` and the SSE piping end: normally, or by throwing
      a message, before or after the response headers went out. */
  datatype StreamRun = StreamOk | StreamError(message: string, headersSent: bool)

  /** The answers of `GET /api/stream/:planId`: 404, 409, the event stream
      (status 200), or 500 with a message. */
  datatype StreamResponse = NotFound | Conflict | Streamed | Failed(message: string)

  /** Where `GET /api/stream/:planId` stands at its first `await`: it has
      answered 404 or 409, or it goes on to stream the plan's prompt. */
  datatype Opening = Answered(response: StreamResponse) | Streaming(prompt: string)

  /** The handler up to its first `await`: the lookup and the two early
      answers. It reads the store and changes nothing. */
  function Open(plans: map<string, PlanRecord>, planId: string): (o: Opening)
    ensures o == Answered(NotFound) <==> planId !in plans
    ensures o == Answered(Conflict) <==> planId in plans && plans[planId].consumed
    ensures o.Streaming? <==> planId in plans && !plans[planId].consumed
    ensures o.Streaming? ==> o.prompt == plans[planId].prompt
  {
    if planId !in plans then Answered(NotFound)
    else if plans[planId].consumed then Answered(Conflict)
    else Streaming(plans[planId].prompt)
  }

  /** The answer once the stream has ended as `run`: 500 when it failed
      before the headers went out, otherwise the stream itself. */
  function Finished(run: StreamRun): (r: StreamResponse)
    ensures r.Failed? <==> run.StreamError? && !run.headersSent
    ensures r.Failed? ==> r.message == StreamErrorText(run.message)
    ensures r == Streamed || r.Failed?
  {
    if run.StreamError? && !run.headersSent then Failed(StreamErrorText(run.message)) else Streamed
  }

  /** `(err as Error)?.message || 'stream_error'`. */
  function StreamErrorText(message: string): (text: string)
    ensures text != ""
    ensures message != "" ==> text == message
  {
    if message != "" then message else "stream_error"
  }

  /** The router: the module's single store, and the rate limiter in front
      of `POST`. */
  class PlanRoutes {
    const store: PlanStore
    const limiter: RateLimit.Limiter

    constructor (store: PlanStore, limiter: RateLimit.Limiter)
      ensures this.store == store && this.limiter == limiter
    {
      this.store := store;
      this.limiter := limiter;
    }

    /** `POST /api/plan` from `ip` at `now` with `body`; `id` is the fresh id
        `create` would draw. The limiter answers first; then the schema. */
    method Post(ip: string, forwarded: Js.Option<string>, now: int, body: Json, id: string) returns (r: PostResponse)
      requires store.Valid() && id !in store.issued
      modifies store, limiter.buckets
      ensures store.Valid() && (old(store.NoneConsumed()) ==> store.NoneConsumed())
      ensures var d := RateLimit.Admit(old(limiter.buckets.entries), RateLimit.ClientKey(ip, forwarded), now, limiter.windowMs, limiter.max);
        && limiter.buckets.entries == d.buckets
        && (d.verdict.TooMany? ==> r == TooManyRequests(d.verdict.retryAfter) && store.plans == old(store.plans))
        && (d.verdict.Next? && !PlanRequestOk(body) ==> r == BadRequest && store.plans == old(store.plans))
        && (d.verdict.Next? && PlanRequestOk(body) ==>
              r == Accepted(id) && id !in old(store.plans)
              && store.plans == old(store.plans)[id := PlanRecord(id, body.fields["userPrompt"].s, now, false)])
    {
      var verdict := limiter.Handle(ip, forwarded, now);
      if verdict.TooMany? {
        return TooManyRequests(verdict.retryAfter);
      }
      if !PlanRequestOk(body) {
        return BadRequest;
      }
      var plan := store.Create(body.fields["userPrompt"].s, id, now);
      r := Accepted(plan.id);
    }

    /** `GET /api/stream/:planId` up to its first `await`. */
    method Begin(planId: string) returns (o: Opening)
      ensures o == Open(store.plans, planId)
    {
      var rec := store.Get(planId);
      if rec.None? {
        return Answered(NotFound);
      }
      if rec.value.consumed {
        return Answered(Conflict);
      }
      o := Streaming(rec.value.prompt);
    }

    /** The rest of the handler, once the stream has ended as `run`:
        `markConsumed` runs in `finally`, whether the stream succeeded or not. */
    method Finish(planId: string, run: StreamRun) returns (r: StreamResponse)
      modifies store
      ensures r == Finished(run)
      ensures store.plans == old(store.plans) - {planId} && store.issued == old(store.issued)
      ensures old(store.Valid()) ==> store.Valid()
      ensures old(store.NoneConsumed()) ==> store.NoneConsumed()
    {
      if run.StreamError? && !run.headersSent {
        r := Failed(StreamErrorText(run.message));
      } else {
        r := Streamed;
      }
      store.MarkConsumed(planId);
    }

    /** `GET /api/stream/:planId` when no other request for the same plan
        overlaps it: the lookup, then, for a plan found unconsumed, the
        stream and `markConsumed`. */
    method Stream(planId: string, run: StreamRun) returns (r: StreamResponse)
      modifies store
      ensures r == NotFound <==> planId !in old(store.plans)
      ensures r == Conflict <==> planId in old(store.plans) && old(store.plans)[planId].consumed
      ensures r.Failed? <==> planId in old(store.plans) && !old(store.plans)[planId].consumed && run.StreamError? && !run.headersSent
      ensures r.Failed? ==> r.message == StreamErrorText(run.message)
      ensures store.plans == if r == Conflict then old(store.plans) else old(store.plans) - {planId}
      ensures old(store.NoneConsumed()) ==> r != Conflict && store.NoneConsumed()
    {
      var o := Begin(planId);
      if o.Answered? {
        return o.response;
      }
      r := Finish(planId, run);
    }

    /** As written, two requests for the same plan whose handlers both reach
        their first `await` before either ends both go on to stream it:
        nothing marks the plan until the first stream ends. */
    method OverlappingBegins(planId: string) returns (first: Opening, second: Opening)
      requires planId in store.plans && !store.plans[planId].consumed
      ensures first.Streaming? && second.Streaming?
    {
      first := Begin(planId);
      second := Begin(planId);
    }

    /** Corrected: the lookup claims the plan it goes on to stream. */
    method BeginClaiming(planId: string) returns (o: Opening)
      modifies store
      ensures o == Open(old(store.plans), planId)
      ensures o.Streaming? ==> store.plans == old(store.plans)[planId := old(store.plans)[planId].(consumed := true)]
      ensures !o.Streaming? ==> store.plans == old(store.plans)
      ensures store.issued == old(store.issued)
      ensures old(store.Valid()) ==> store.Valid()
    {
      o := Begin(planId);
      if o.Streaming? {
        store.Claim(planId);
      }
    }

    /** Corrected: of two overlapping requests for a plan, the second is
        answered 409, so the plan streams once. */
    method OverlappingBeginsClaiming(planId: string) returns (first: Opening, second: Opening)
      requires planId in store.plans && !store.plans[planId].consumed
      modifies store
      ensures first.Streaming? && second == Answered(Conflict)
    {
      first := BeginClaiming(planId);
      second := BeginClaiming(planId);
    }
  }

  /** Once a plan has been opened, whether by a claiming lookup or by a
      request that ran to its end, no later lookup streams it again. */
  lemma OpenedOnce(plans: map<string, PlanRecord>, planId: string)
    requires Open(plans, planId).Streaming?
    ensures !Open(plans[planId := plans[planId].(consumed := true)], planId).Streaming?
    ensures Open(plans - {planId}, planId) == Answered(NotFound)
  {
  }
}
