/**
 * The five action descriptors a resource controller hands the router:
 * `validate` (and, for `getAll`, `sanitize`) and `execute` of `getAll`,
 * `create`, `get`, `update` and `delete`. Each `execute` is a pipeline of
 * steps run one after the other; the first step that fails ends it with its
 * error and nothing is sent. The model is a parameter `db` that answers the
 * call the pipeline makes; the call is returned too, so that the contracts
 * can say what the model was asked.
 */
module ResourceActions {
  import opened JsValues
  import opened Results
  import opened ResourceController

  /** The model calls the actions make, with their arguments. */
  datatype DbCall =
    | Find(filter: Value, projection: Object, options: Object)
    | Create(doc: Value)
    | FindOne(filter: Value, projection: Object)
    | FindOneAndUpdate(filter: Value, update: Value, options: Object)
    | FindOneAndRemove(filter: Value)

  // ================================================================ getAll

  /**
   * `getAll`'s validate: the query-string check of `options`, then
   * `authorize`. `queryErrors` is what the request validator reports for
   * that check (falsy when `options` is absent or is JSON text).
   */
  function ValidateGetAll(h: Hooks, req: Request, queryErrors: Value): (r: Outcome)
    ensures Truthy(queryErrors) ==> r == Fail(Rejection(queryErrors))
    ensures !Truthy(queryErrors) ==> r == h.authorize(req)
  {
    if Truthy(queryErrors) then Fail(Rejection(queryErrors)) else h.authorize(req)
  }

  /**
   * `getAll`'s sanitize: a truthy `options` query value is replaced by what
   * `parse` (`JSON.parse`) makes of it; a parse that throws ends the request
   * with the exception. Nothing else in the request changes, and in
   * particular the filter `execute` derives from the query does not.
   */
  method Sanitize(req: Request, parse: Value -> Result<Value>) returns (r: Result<Request>)
    ensures var raw := Get(req.query, "options");
      && (!Truthy(raw) ==> r == Ok(req))
      && (Truthy(raw) && parse(raw).Err? ==> r == Err(parse(raw).failure))
      && (Truthy(raw) && parse(raw).Ok? ==> r == Ok(req.(query := Set(req.query, "options", parse(raw).value))))
    ensures r.Ok? ==> r.value.params == req.params && r.value.body == req.body
    ensures r.Ok? ==> Keys(r.value.query) == Keys(req.query)
    ensures r.Ok? ==> forall k :: k != "options" ==> Get(r.value.query, k) == Get(req.query, k)
    ensures r.Ok? ==> ListFilter(r.value.query) == ListFilter(req.query)
  {
    var query := req.query;
    var raw := Get(query, "options");
    if Truthy(raw) {
      var parsed := parse(raw);
      if parsed.Err? {
        return Err(parsed.failure);
      }
      KeyOfTruthy(query, "options");
      OmitSet(query, "options", parsed.value, {"options"});
      query := Set(query, "options", parsed.value);
    }
    r := Ok(req.(query := query));
  }

  /** The filter `getAll` starts from: the query without its `options` entry. */
  function ListFilter(query: Object): (f: Object)
    ensures forall k :: Get(f, k) == if k == "options" then Undefined else Get(query, k)
    ensures forall k :: k in Keys(f) <==> k in Keys(query) && k != "options"
  {
    Omit(query, {"options"})
  }

  /** The query options `getAll` copies into the read options. */
  const PagingKeys := {"skip", "limit", "sort"}

  /** Whether the parsed query options override the read option `k`. */
  predicate Overrides(queryOptions: Value, k: string) {
    k in PagingKeys && Truthy(Member(queryOptions, k))
  }

  /** The read options `prepareOptions` produced, an empty object standing in for a falsy value. */
  function BaseOptions(prepared: Option<Object>): Object {
    if prepared.Some? then prepared.value else []
  }

  /** The read option `k` takes the query option's value when that is truthy. */
  function Override(options: Object, opts: Value, k: string): (o: Object)
    ensures Truthy(Member(opts, k)) ==> Get(o, k) == Member(opts, k)
    ensures forall j :: j != k || !Truthy(Member(opts, k)) ==> Get(o, j) == Get(options, j)
    ensures forall j :: j in Keys(o) <==> j in Keys(options) || (j == k && Truthy(Member(opts, k)))
  {
    if Truthy(Member(opts, k)) then Set(options, k, Member(opts, k)) else options
  }

  /** `v`, or an empty object when `v` is falsy. */
  function OrEmpty(v: Value): Value {
    if Truthy(v) then v else Obj([])
  }

  /** Replacing a falsy value by an empty object changes no property read. */
  lemma OrEmptyReadsTheSame(v: Value)
    ensures forall k :: Member(OrEmpty(v), k) == Member(v, k)
  {
  }

  /**
   * The read options of `getAll`: those `prepareOptions` produced, with
   * `skip`, `limit` and `sort` taken from the parsed query options wherever
   * these carry a truthy value. Every other option is left as it was.
   */
  function FindOptions(prepared: Option<Object>, queryOptions: Value): (o: Object)
    ensures forall k :: Overrides(queryOptions, k) ==> Get(o, k) == Member(queryOptions, k)
    ensures forall k :: !Overrides(queryOptions, k) ==> Get(o, k) == Get(BaseOptions(prepared), k)
    ensures forall k :: k in Keys(o) <==> k in Keys(BaseOptions(prepared)) || Overrides(queryOptions, k)
  {
    var opts := OrEmpty(queryOptions);
    OrEmptyReadsTheSame(queryOptions);
    var o1 := Override(BaseOptions(prepared), opts, "skip");
    var o2 := Override(o1, opts, "limit");
    Override(o2, opts, "sort")
  }

  /**
   * The projection `getAll` sends: an exclusive projection always gets
   * `__v: 0`, overriding a `__v` already there; any other projection is sent
   * as prepared. The result is still exclusive.
   */
  function ListProjection(p: Object): (q: Object)
    ensures IsProjectionExclusive(p) ==> Get(q, "__v") == Num(0.0) && IsProjectionExclusive(q)
    ensures IsProjectionExclusive(p) ==> Keys(q) == if "__v" in Keys(p) then Keys(p) else Keys(p) + ["__v"]
    ensures !IsProjectionExclusive(p) ==> q == p
    ensures forall k :: k != "__v" ==> Get(q, k) == Get(p, k)
  {
    if IsProjectionExclusive(p) then Set(p, "__v", Num(0.0)) else p
  }

  /** The read that `getAll` turns into its reply: `{ <name>s: data }`. */
  function ListResponse(c: Controller, h: Hooks, req: Request, reply: DbReply): (r: Result<Reply>)
    ensures Settle(h, req, reply).Err? ==> r == Err(Settle(h, req, reply).failure)
    ensures Settle(h, req, reply).Ok? ==>
      && r.Ok? && r.value.status == 200 && r.value.body.Obj?
      && Keys(r.value.body.props) == [c.name + "s"]
      && Get(r.value.body.props, c.name + "s") == Settle(h, req, reply).value
  {
    match Settle(h, req, reply)
    case Err(f) => Err(f)
    case Ok(data) => Ok(Reply(200, Obj([Prop(c.name + "s", data)])))
  }

  /**
   * `getAll`'s execute: `updateFilter` on the query minus `options`, then
   * the read options, then the projection, then `find`, its completion,
   * `postExecute`, and the plural envelope.
   */
  method GetAllExecute(c: Controller, h: Hooks, req: Request, db: DbCall -> DbReply)
    returns (call: Option<DbCall>, r: Result<Reply>)
    ensures var f := h.updateFilter(req, Obj(ListFilter(req.query)));
      var o := h.prepareOptions(req);
      var p := h.prepareProjection(req);
      && (f.Err? ==> call == None && r == Err(f.failure))
      && (f.Ok? && o.Err? ==> call == None && r == Err(o.failure))
      && (f.Ok? && o.Ok? && p.Err? ==> call == None && r == Err(p.failure))
      && (f.Ok? && o.Ok? && p.Ok? ==>
            && call == Some(Find(f.value, ListProjection(p.value), FindOptions(o.value, Get(req.query, "options"))))
            && r == ListResponse(c, h, req, db(call.value)))
    ensures r.Ok? ==> call.Some? && r.value.status == 200
  {
    call := None;
    var filter := Obj(Omit(req.query, {"options"}));
    var updated := h.updateFilter(req, filter);
    if updated.Err? {
      return call, Err(updated.failure);
    }
    var filtered := updated.value;
    var prepared := h.prepareOptions(req);
    if prepared.Err? {
      return call, Err(prepared.failure);
    }
    var base := prepared.value;
    var options := if base.Some? then base.value else [];
    var opts := Get(req.query, "options");
    if !Truthy(opts) {
      opts := Obj([]);
    }
    ghost var o0 := options;
    if Truthy(Member(opts, "skip")) {
      options := Set(options, "skip", Member(opts, "skip"));
    }
    ghost var o1 := options;
    if Truthy(Member(opts, "limit")) {
      options := Set(options, "limit", Member(opts, "limit"));
    }
    ghost var o2 := options;
    if Truthy(Member(opts, "sort")) {
      options := Set(options, "sort", Member(opts, "sort"));
    }
    assert o1 == Override(o0, opts, "skip") && o2 == Override(o1, opts, "limit") && options == Override(o2, opts, "sort");
    assert options == FindOptions(base, Get(req.query, "options"));
    var projected := h.prepareProjection(req);
    if projected.Err? {
      return call, Err(projected.failure);
    }
    var projection := projected.value;
    if IsProjectionExclusive(projection) {
      projection := Set(projection, "__v", Num(0.0));
    }
    var found := Find(filtered, projection, options);
    call := Some(found);
    r := ListResponse(c, h, req, db(found));
  }

  // ================================================================ create

  /**
   * `create`'s validate is the `authorize` hook itself: no id parameter is
   * looked at, so create accepts every request that the validate step of
   * `get`, `update` or `delete` accepts, and more.
   */
  function ValidateCreate(h: Hooks, req: Request): (r: Outcome)
    ensures r == h.authorize(req)
    ensures forall id :: CheckIdThenAuthorize(id, h.authorize, req).Pass? ==> r.Pass?
  {
    h.authorize(req)
  }

  /** A request without the id parameter passes create's validation and fails that of the item actions. */
  lemma CreateAcceptsWithoutId(c: Controller, h: Hooks, req: Request)
    requires h.authorize(req).Pass? && !Truthy(Get(req.params, ResourceId(c)))
    ensures ValidateCreate(h, req).Pass?
    ensures ValidateItem(c, h, req) == Fail(MissingId)
  {
  }

  const ReadOfNull := Error("TypeError", "Cannot read property 'toJSON' of null or undefined")

  /**
   * The plain form of a created result: what its own `toJSON` returns, or
   * failing that what its `toObject` returns, or else the value itself.
   * `convert(data)` is that conversion's answer, `None` when the value has
   * neither method (as every value other than a host object has none, a
   * faithful `convert` answers `None` on all of them); looking either method up on `null` or `undefined` throws.
   */
  function Serialized(data: Value, convert: Value -> Option<Value>): (r: Result<Value>)
    ensures r.Err? <==> data == Null || data == Undefined
    ensures r.Ok? && convert(data).Some? ==> r.value == convert(data).value
    ensures r.Ok? && convert(data).None? ==> r.value == data
  {
    if data == Null || data == Undefined then Err(ReadOfNull)
    else if convert(data).Some? then Ok(convert(data).value)
    else Ok(data)
  }

  /**
   * The reply of `create`: `{ <name>: entity }`, the entity being the
   * serialized result with its `__v` field left out and every other field kept.
   */
  function CreateResponse(c: Controller, h: Hooks, req: Request, reply: DbReply, convert: Value -> Option<Value>)
    : (r: Result<Reply>)
    ensures Settle(h, req, reply).Err? ==> r == Err(Settle(h, req, reply).failure)
    ensures Settle(h, req, reply).Ok? ==>
      var s := Serialized(Settle(h, req, reply).value, convert);
      && (s.Err? ==> r == Err(s.failure))
      && (s.Ok? ==>
            && r.Ok? && r.value.status == 200 && r.value.body.Obj?
            && Keys(r.value.body.props) == [c.name]
            && var entity := Get(r.value.body.props, c.name);
               && entity.Obj?
               && "__v" !in Keys(entity.props)
               && (forall k :: k in Keys(entity.props) <==> k != "__v" && k in Keys(Enumerable(s.value)))
               && forall k :: k != "__v" ==> Get(entity.props, k) == Get(Enumerable(s.value), k))
  {
    match Settle(h, req, reply)
    case Err(f) => Err(f)
    case Ok(data) =>
      match Serialized(data, convert)
      case Err(f) => Err(f)
      case Ok(plain) => Ok(Reply(200, Obj([Prop(c.name, Obj(Omit(Enumerable(plain), {"__v"})))])))
  }

  /**
   * `create`'s execute: the document `body[name]` goes through `preCreate`
   * and is handed to the model's `create`; the result is completed,
   * post-processed and wrapped.
   */
  method CreateExecute(c: Controller, h: Hooks, req: Request, db: DbCall -> DbReply, convert: Value -> Option<Value>)
    returns (call: Option<DbCall>, r: Result<Reply>)
    ensures var d := h.preCreate(req, Get(req.body, c.name));
      && (d.Err? ==> call == None && r == Err(d.failure))
      && (d.Ok? ==> call == Some(Create(d.value)) && r == CreateResponse(c, h, req, db(call.value), convert))
    ensures r.Ok? ==> call.Some? && r.value.status == 200
  {
    var doc := Get(req.body, c.name);
    var prepared := h.preCreate(req, doc);
    if prepared.Err? {
      return None, Err(prepared.failure);
    }
    call := Some(Create(prepared.value));
    r := CreateResponse(c, h, req, db(call.value), convert);
  }

  // ================================================================ get

  /** The filter of `get`, `update` and `delete`: `_id` is the resource id parameter, and nothing else. */
  function IdFilter(c: Controller, req: Request): (f: Value)
    ensures f.Obj? && Keys(f.props) == ["_id"]
    ensures Get(f.props, "_id") == Get(req.params, ResourceId(c))
  {
    Obj([Prop("_id", Get(req.params, c.id))])
  }

  /**
   * The validate step of `get`, `update` and `delete`: the id check on the
   * controller's resource id, then `authorize`.
   */
  function ValidateItem(c: Controller, h: Hooks, req: Request): (r: Outcome)
    ensures !Truthy(Get(req.params, ResourceId(c))) ==> r == Fail(MissingId)
    ensures Truthy(Get(req.params, ResourceId(c))) ==> r == h.authorize(req)
    ensures r.Pass? ==> ResourceId(c) in Keys(req.params)
  {
    CheckIdThenAuthorize(ResourceId(c), h.authorize, req)
  }

  /**
   * The projection `get` and `update` send: an exclusive projection gets
   * `__v: 0` only when it does not mention `__v` (reads `undefined` there);
   * an explicit `__v` and a non-exclusive projection are kept as they are.
   */
  function ItemProjection(p: Object): (q: Object)
    ensures IsProjectionExclusive(p) && Get(p, "__v") == Undefined ==>
      Get(q, "__v") == Num(0.0) && IsProjectionExclusive(q)
    ensures IsProjectionExclusive(p) && Get(p, "__v") == Undefined ==>
      Keys(q) == if "__v" in Keys(p) then Keys(p) else Keys(p) + ["__v"]
    ensures !IsProjectionExclusive(p) || Get(p, "__v") != Undefined ==> q == p
    ensures forall k :: k != "__v" ==> Get(q, k) == Get(p, k)
  {
    if IsProjectionExclusive(p) && Get(p, "__v") == Undefined then Set(p, "__v", Num(0.0)) else p
  }

  /** Where no `__v` is given, the list rule and the single-resource rule agree. */
  lemma ProjectionRulesAgreeWithoutVersion(p: Object)
    requires Get(p, "__v") == Undefined
    ensures ListProjection(p) == ItemProjection(p)
  {
  }

  /** An explicit `__v` in an exclusive projection: `getAll` overrides it, `get` keeps it. */
  lemma ProjectionRulesDifferOnExplicitVersion()
    ensures var p := [Prop("password", Num(0.0)), Prop("__v", Num(1.0))];
      && Get(ListProjection(p), "__v") == Num(0.0)
      && Get(ItemProjection(p), "__v") == Num(1.0)
  {
  }

  const KeysOfUndefined := Error("TypeError", "Cannot convert undefined or null to object")

  /**
   * The projection step of `get` and `update` AS WRITTEN: the error the hook
   * reports is not looked at, so the `undefined` projection that comes with
   * it reaches `Object.keys`, which throws.
   */
  function ItemProjectionStepAsWritten(prepared: Result<Object>): (r: Result<Object>)
    ensures prepared.Ok? ==> r == Ok(ItemProjection(prepared.value))
    ensures prepared.Err? ==> r == Err(KeysOfUndefined)
  {
    match prepared
    case Err(_) => Err(KeysOfUndefined)
    case Ok(p) => Ok(ItemProjection(p))
  }

  /** The hook's own error is lost: a 403 from the hook never reaches the router. */
  lemma ProjectionHookErrorLostAsWritten()
    ensures ItemProjectionStepAsWritten(Err(HttpError(403, "Forbidden"))) != Err(HttpError(403, "Forbidden"))
  {
  }

  /**
   * The projection step of `get` and `update` as evidently intended, and as
   * `getAll` does it: a failing hook ends the pipeline with its own error.
   */
  function ItemProjectionStep(prepared: Result<Object>): (r: Result<Object>)
    ensures prepared.Ok? ==> r == Ok(ItemProjection(prepared.value))
    ensures prepared.Err? ==> r == Err(prepared.failure)
  {
    match prepared
    case Err(f) => Err(f)
    case Ok(p) => Ok(ItemProjection(p))
  }

  /**
   * The corrected step and the as-written one agree exactly when the hook
   * succeeds, or when its own error happens to be that same TypeError.
   */
  lemma ProjectionHookErrorKept(prepared: Result<Object>)
    ensures ItemProjectionStep(prepared) == ItemProjectionStepAsWritten(prepared)
      <==> prepared.Ok? || prepared.failure == KeysOfUndefined
  {
  }

  /** `get` and `update` reply with `{ <name>: data }`. */
  function ItemResponse(c: Controller, h: Hooks, req: Request, reply: DbReply): (r: Result<Reply>)
    ensures Settle(h, req, reply).Err? ==> r == Err(Settle(h, req, reply).failure)
    ensures Settle(h, req, reply).Ok? ==>
      && r.Ok? && r.value.status == 200 && r.value.body.Obj?
      && Keys(r.value.body.props) == [c.name]
      && Get(r.value.body.props, c.name) == Settle(h, req, reply).value
  {
    match Settle(h, req, reply)
    case Err(f) => Err(f)
    case Ok(data) => Ok(Reply(200, Obj([Prop(c.name, data)])))
  }

  /**
   * `get`'s execute: `updateFilter` on `{ _id: id }`, the projection, then
   * `findOne`, its completion, `postExecute`, and the singular envelope.
   * The projection step is the corrected `ItemProjectionStep`: a failing
   * projection hook ends the request with its own error.
   */
  method GetExecute(c: Controller, h: Hooks, req: Request, db: DbCall -> DbReply)
    returns (call: Option<DbCall>, r: Result<Reply>)
    ensures var f := h.updateFilter(req, IdFilter(c, req));
      var p := h.prepareProjection(req);
      && (f.Err? ==> call == None && r == Err(f.failure))
      && (f.Ok? && p.Err? ==> call == None && r == Err(p.failure))
      && (f.Ok? && p.Ok? ==>
            && call == Some(FindOne(f.value, ItemProjection(p.value)))
            && r == ItemResponse(c, h, req, db(call.value)))
    ensures r.Ok? ==> call.Some? && r.value.status == 200
  {
    var filter := Obj([Prop("_id", Get(req.params, c.id))]);
    var updated := h.updateFilter(req, filter);
    if updated.Err? {
      return None, Err(updated.failure);
    }
    var projected := ItemProjectionStep(h.prepareProjection(req));
    if projected.Err? {
      return None, Err(projected.failure);
    }
    call := Some(FindOne(updated.value, projected.value));
    r := ItemResponse(c, h, req, db(call.value));
  }

  // ================================================================ update

  /** The update document: `$set` of the body's entry under the resource name, and nothing else. */
  function UpdateDocument(c: Controller, req: Request): (u: Value)
    ensures u.Obj? && Keys(u.props) == ["$set"]
    ensures Get(u.props, "$set") == Get(req.body, c.name)
  {
    Obj([Prop("$set", Get(req.body, c.name))])
  }

  /**
   * The options of `findOneAndUpdate`: never an upsert, always the new
   * document back, and the fields the projection rule of `get` gives.
   */
  function UpdateOptions(p: Object): (o: Object)
    ensures Get(o, "upsert") == Bool(false) && Get(o, "new") == Bool(true)
    ensures Get(o, "fields") == Obj(ItemProjection(p))
    ensures Keys(o) == ["upsert", "new", "fields"]
  {
    Set(NoUpsert, "fields", Obj(ItemProjection(p)))
  }

  /**
   * The options object of `update`, built as the source builds it: no upsert
   * and the new document back, then the prepared projection stored as its
   * `fields`, then `__v` excluded through `fields` under the rule of `get`.
   * `fields` and the projection are one object, so that last write is seen
   * through both.
   */
  method UpdateOptionsFor(prepared: Object) returns (option: Object)
    ensures option == UpdateOptions(prepared)
  {
    option := NoUpsert;
    var projection := prepared;
    option := Set(option, "fields", Obj(projection));
    if IsProjectionExclusive(projection) && Get(projection, "__v") == Undefined {
      projection := Set(projection, "__v", Num(0.0));
      option := Set(option, "fields", Obj(projection));
    }
    FieldsWrittenTwice(prepared);
  }

  /** Writing the projection into `fields` and then `__v` through it gives the update options. */
  lemma FieldsWrittenTwice(p: Object)
    ensures var once := Set(NoUpsert, "fields", Obj(p));
      UpdateOptions(p) ==
        if IsProjectionExclusive(p) && Get(p, "__v") == Undefined
        then Set(once, "fields", Obj(Set(p, "__v", Num(0.0))))
        else once
  {
    SetTwice(NoUpsert, "fields", Obj(p), Obj(Set(p, "__v", Num(0.0))));
  }

  /** `{ upsert: false, new: true }`. */
  const NoUpsert: Object := [Prop("upsert", Bool(false)), Prop("new", Bool(true))]

  /**
   * `update`'s execute: `updateFilter` on `{ _id: id }`, then
   * `findOneAndUpdate` with `{ $set: body[name] }` and options that forbid an
   * upsert, its completion, `postExecute`, and the singular envelope. A
   * missing document is a 404, never a creation. As in `GetExecute`, a
   * failing projection hook ends the request with its own error.
   */
  method UpdateExecute(c: Controller, h: Hooks, req: Request, db: DbCall -> DbReply)
    returns (call: Option<DbCall>, r: Result<Reply>)
    ensures var f := h.updateFilter(req, IdFilter(c, req));
      var p := h.prepareProjection(req);
      && (f.Err? ==> call == None && r == Err(f.failure))
      && (f.Ok? && p.Err? ==> call == None && r == Err(p.failure))
      && (f.Ok? && p.Ok? ==>
            && call == Some(FindOneAndUpdate(f.value, UpdateDocument(c, req), UpdateOptions(p.value)))
            && r == ItemResponse(c, h, req, db(call.value)))
    ensures call.Some? ==> Get(call.value.options, "upsert") == Bool(false) && Get(call.value.options, "new") == Bool(true)
    ensures call.Some? && !Truthy(db(call.value).err) && !Truthy(db(call.value).result) ==> r == Err(NotFound)
    ensures r.Ok? ==> call.Some? && r.value.status == 200
  {
    var filter := Obj([Prop("_id", Get(req.params, c.id))]);
    var updated := h.updateFilter(req, filter);
    if updated.Err? {
      return None, Err(updated.failure);
    }
    var f := updated.value;
    var update := Obj([Prop("$set", Get(req.body, c.name))]);
    var prepared := h.prepareProjection(req);
    // a failing hook ends the pipeline, as in ItemProjectionStep
    if prepared.Err? {
      return None, Err(prepared.failure);
    }
    var projection := prepared.value;
    var option := UpdateOptionsFor(projection);
    var found := FindOneAndUpdate(f, update, option);
    call := Some(found);
    r := ItemResponse(c, h, req, db(found));
  }

  // ================================================================ delete

  /** `delete` replies with `true` whatever was removed and whatever `postExecute` made of it. */
  function DeleteResponse(h: Hooks, req: Request, reply: DbReply): (r: Result<Reply>)
    ensures Settle(h, req, reply).Err? ==> r == Err(Settle(h, req, reply).failure)
    ensures Settle(h, req, reply).Ok? ==> r == Ok(Reply(200, Bool(true)))
  {
    match Settle(h, req, reply)
    case Err(f) => Err(f)
    case Ok(_) => Ok(Reply(200, Bool(true)))
  }

  /**
   * `delete`'s execute: `updateFilter` on `{ _id: id }`, then
   * `findOneAndRemove`, its completion, `postExecute`, and `true`.
   */
  method DeleteExecute(c: Controller, h: Hooks, req: Request, db: DbCall -> DbReply)
    returns (call: Option<DbCall>, r: Result<Reply>)
    ensures var f := h.updateFilter(req, IdFilter(c, req));
      && (f.Err? ==> call == None && r == Err(f.failure))
      && (f.Ok? ==> call == Some(FindOneAndRemove(f.value)) && r == DeleteResponse(h, req, db(call.value)))
    ensures r.Ok? ==> r.value == Reply(200, Bool(true))
  {
    var filter := Obj([Prop("_id", Get(req.params, c.id))]);
    var updated := h.updateFilter(req, filter);
    if updated.Err? {
      return None, Err(updated.failure);
    }
    call := Some(FindOneAndRemove(updated.value));
    r := DeleteResponse(h, req, db(call.value));
  }
}
