/**
 * The resource controller itself: its construction, the hooks each action
 * may override, and the decision rules shared by the five actions
 * (projection exclusivity, the resource id check, the mapping of a model
 * call's completion onto HTTP errors).
 */
module ResourceController {
  import opened JsValues
  import opened Results

  /** The parts of an incoming request the controller reads. */
  datatype Request = Request(query: Object, params: Object, body: Object)

  // ---------------------------------------------------------------- construction

  /**
   * The construction options. `name` and `id` are the strings given, `""`
   * standing for a missing or otherwise falsy property; `model` is whatever
   * value was given.
   */
  datatype ControllerOptions = ControllerOptions(model: Value, name: string, id: string)

  /** A constructed controller: its fields `_model`, `_name` and `_id`. */
  datatype Controller = Controller(model: Value, name: string, id: string)

  ghost predicate Valid(c: Controller) {
    Truthy(c.model) && c.name != "" && c.id != ""
  }

  const ModelMissing := Error("Error", "Options must define model property")
  const NameMissing := Error("Error", "Options must define name property")

  /**
   * `new ResourceController(opts)`: fails when the model or the name is
   * missing, and otherwise names the resource id after the resource unless
   * an id was given.
   */
  method Construct(opts: ControllerOptions) returns (r: Result<Controller>)
    ensures r.Err? <==> !Truthy(opts.model) || opts.name == ""
    ensures !Truthy(opts.model) ==> r == Err(ModelMissing)
    ensures Truthy(opts.model) && opts.name == "" ==> r == Err(NameMissing)
    ensures r.Ok? ==> Valid(r.value) && r.value.model == opts.model && r.value.name == opts.name
    ensures r.Ok? ==> ResourceId(r.value) == if opts.id != "" then opts.id else opts.name + "Id"
  {
    if !Truthy(opts.model) {
      return Err(ModelMissing);
    }
    if opts.name == "" {
      return Err(NameMissing);
    }
    var c := Controller(opts.model, opts.name, opts.id);
    if c.id == "" {
      c := c.(id := c.name + "Id");
    }
    return Ok(c);
  }

  /** The `resourceId` getter: the name of the path parameter holding the id. */
  function ResourceId(c: Controller): string {
    c.id
  }

  // ---------------------------------------------------------------- projections

  /** The values that mark a projection entry as an exclusion. */
  predicate IsExcludeFlag(v: Value) {
    v == Bool(false) || v == Num(0.0)
  }

  /**
   * A projection counts as exclusive when it is empty or when the value of
   * its first key is `false` or `0`. No other key is looked at.
   */
  function IsProjectionExclusive(projection: Object): (r: bool)
    ensures r <==> Keys(projection) == [] || IsExcludeFlag(Get(projection, Keys(projection)[0]))
  {
    |projection| == 0 || IsExcludeFlag(projection[0].val)
  }

  /** Only the first entry decides: whatever follows it never matters. */
  lemma ExclusivityIgnoresLaterKeys(first: Prop, rest1: Object, rest2: Object)
    ensures IsProjectionExclusive([first] + rest1) == IsProjectionExclusive([first] + rest2)
    ensures IsProjectionExclusive([first] + rest1) <==> IsExcludeFlag(first.val)
  {
  }

  /** The heuristic depends on key order: the same entries give different answers. */
  lemma ExclusivityDependsOnOrder()
    ensures !IsProjectionExclusive([Prop("name", Num(1.0)), Prop("age", Num(0.0))])
    ensures IsProjectionExclusive([Prop("age", Num(0.0)), Prop("name", Num(1.0))])
  {
  }

  // ---------------------------------------------------------------- hooks

  /** The hooks every action runs, each standing for a callback-taking function. */
  datatype Hooks = Hooks(
    authorize: Request -> Outcome,
    updateFilter: (Request, Value) -> Result<Value>,
    preCreate: (Request, Value) -> Result<Value>,
    prepareProjection: Request -> Result<Object>,
    // `None` stands for a falsy options value
    prepareOptions: Request -> Result<Option<Object>>,
    postExecute: (Request, Value) -> Result<Value>)

  /** The `on` option of an action: the hooks a subclass overrides. */
  datatype On = On(
    authorize: Option<Request -> Outcome>,
    updateFilter: Option<(Request, Value) -> Result<Value>>,
    preCreate: Option<(Request, Value) -> Result<Value>>,
    prepareProjection: Option<Request -> Result<Object>>,
    prepareOptions: Option<Request -> Result<Option<Object>>>,
    postExecute: Option<(Request, Value) -> Result<Value>>)

  function DefaultAuthorize(req: Request): Outcome { Pass }
  function DefaultPrepareProjection(req: Request): Result<Object> { Ok([]) }
  function DefaultPrepareOptions(req: Request): Result<Option<Object>> { Ok(Some([])) }
  function DefaultUpdateFilter(req: Request, filter: Value): Result<Value> { Ok(filter) }
  function DefaultPreCreate(req: Request, doc: Value): Result<Value> { Ok(doc) }
  function DefaultPostExecute(req: Request, result: Value): Result<Value> { Ok(result) }

  /** No hook overridden. */
  const NoOverrides := On(None, None, None, None, None, None)

  /**
   * Every hook the action runs: the override the `on` option gives, and
   * otherwise the default, which authorizes everything, passes filters,
   * documents and results through, and prepares empty projections and options.
   */
  function WithDefaults(on: On): (h: Hooks)
    ensures forall req :: h.authorize(req) == if on.authorize.Some? then on.authorize.value(req) else Pass
    ensures forall req, f :: h.updateFilter(req, f) == if on.updateFilter.Some? then on.updateFilter.value(req, f) else Ok(f)
    ensures forall req, d :: h.preCreate(req, d) == if on.preCreate.Some? then on.preCreate.value(req, d) else Ok(d)
    ensures forall req :: h.prepareProjection(req) == if on.prepareProjection.Some? then on.prepareProjection.value(req) else Ok([])
    ensures forall req :: h.prepareOptions(req) == if on.prepareOptions.Some? then on.prepareOptions.value(req) else Ok(Some([]))
    ensures forall req, x :: h.postExecute(req, x) == if on.postExecute.Some? then on.postExecute.value(req, x) else Ok(x)
  {
    Hooks(
      if on.authorize.Some? then on.authorize.value else DefaultAuthorize,
      if on.updateFilter.Some? then on.updateFilter.value else DefaultUpdateFilter,
      if on.preCreate.Some? then on.preCreate.value else DefaultPreCreate,
      if on.prepareProjection.Some? then on.prepareProjection.value else DefaultPrepareProjection,
      if on.prepareOptions.Some? then on.prepareOptions.value else DefaultPrepareOptions,
      if on.postExecute.Some? then on.postExecute.value else DefaultPostExecute)
  }

  // ---------------------------------------------------------------- shared steps

  const MissingId := HttpError(400, "Missing resource id")

  /**
   * The `validate` step of `get`, `update` and `delete`: a request without a
   * (truthy) id parameter is rejected with 400 before `authorize` is asked;
   * otherwise the verdict is `authorize`'s.
   */
  function CheckIdThenAuthorize(id: string, authorize: Request -> Outcome, req: Request): (r: Outcome)
    ensures !Truthy(Get(req.params, id)) ==> r == Fail(MissingId)
    ensures Truthy(Get(req.params, id)) ==> r == authorize(req)
    ensures r.Pass? ==> id in Keys(req.params)
  {
    if !Truthy(Get(req.params, id)) then Fail(MissingId) else authorize(req)
  }

  /** When the id is missing, `authorize` plays no part: any two give the same verdict. */
  lemma MissingIdIgnoresAuthorize(id: string, a1: Request -> Outcome, a2: Request -> Outcome, req: Request)
    requires !Truthy(Get(req.params, id))
    ensures CheckIdThenAuthorize(id, a1, req) == CheckIdThenAuthorize(id, a2, req)
  {
  }

  /** What a model call hands its callback: `(err, result)`. */
  datatype DbReply = DbReply(err: Value, result: Value)

  const QueryFailed := HttpError(400, "Failed to get resource")
  const NotFound := HttpError(404, "Not Found")

  /**
   * The completion handler of every model call: an error wins over any
   * result and becomes 400, a falsy result becomes 404, and anything else is
   * passed on unchanged.
   */
  function DbCompletion(reply: DbReply): (r: Result<Value>)
    ensures Truthy(reply.err) ==> r == Err(QueryFailed)
    ensures !Truthy(reply.err) && !Truthy(reply.result) ==> r == Err(NotFound)
    ensures r.Ok? <==> !Truthy(reply.err) && Truthy(reply.result)
    ensures r.Ok? ==> r.value == reply.result
  {
    if Truthy(reply.err) then Err(QueryFailed)
    else if !Truthy(reply.result) then Err(NotFound)
    else Ok(reply.result)
  }

  /** An empty list is truthy, so a list query that matches nothing is not a 404. */
  lemma EmptyListIsFound()
    ensures DbCompletion(DbReply(Null, Arr([]))) == Ok(Arr([]))
  {
  }

  /**
   * The steps every action runs after its model call: the completion
   * handler, then `postExecute` on the result it passes on.
   */
  function Settle(h: Hooks, req: Request, reply: DbReply): (r: Result<Value>)
    ensures Truthy(reply.err) ==> r == Err(QueryFailed)
    ensures !Truthy(reply.err) && !Truthy(reply.result) ==> r == Err(NotFound)
    ensures !Truthy(reply.err) && Truthy(reply.result) ==> r == h.postExecute(req, reply.result)
    ensures r.Ok? ==> !Truthy(reply.err) && Truthy(reply.result)
  {
    match DbCompletion(reply)
    case Err(f) => Err(f)
    case Ok(result) => h.postExecute(req, result)
  }
}
