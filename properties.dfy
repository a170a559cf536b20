/**
 * What a router or a subclass can rely on when it uses the action
 * descriptors: facts that follow from the contracts of the pipelines alone.
 */
module ControllerProperties {
  import opened JsValues
  import opened Results
  import opened ResourceController
  import opened ResourceActions

  /** Every object the pipelines hand the model is a proper JavaScript object. */
  lemma {:induction false} ModelArgumentsWellFormed(query: Object, prepared: Option<Object>, queryOptions: Value, p: Object)
    requires WellFormed(query) && WellFormed(p)
    requires prepared.Some? ==> WellFormed(prepared.value)
    ensures WellFormed(ListFilter(query))
    ensures WellFormed(FindOptions(prepared, queryOptions))
    ensures WellFormed(ListProjection(p)) && WellFormed(ItemProjection(p))
    ensures WellFormed(UpdateOptions(p))
  {
    OmitWellFormed(query, {"options"});
    FindOptionsWellFormed(prepared, queryOptions);
    ProjectionsWellFormed(p);
  }

  lemma {:induction false} ProjectionsWellFormed(p: Object)
    requires WellFormed(p)
    ensures WellFormed(ListProjection(p)) && WellFormed(ItemProjection(p))
    ensures WellFormed(UpdateOptions(p))
  {
    SetWellFormed(p, "__v", Num(0.0));
    SetWellFormed(NoUpsert, "fields", Obj(ItemProjection(p)));
  }

  lemma {:induction false} FindOptionsWellFormed(prepared: Option<Object>, queryOptions: Value)
    requires prepared.Some? ==> WellFormed(prepared.value)
    ensures WellFormed(FindOptions(prepared, queryOptions))
  {
    var opts := OrEmpty(queryOptions);
    var o1 := Override(BaseOptions(prepared), opts, "skip");
    var o2 := Override(o1, opts, "limit");
    OverrideWellFormed(BaseOptions(prepared), opts, "skip");
    OverrideWellFormed(o1, opts, "limit");
    OverrideWellFormed(o2, opts, "sort");
    assert FindOptions(prepared, queryOptions) == Override(o2, opts, "sort");
  }

  lemma {:induction false} OverrideWellFormed(options: Object, opts: Value, k: string)
    requires WellFormed(options)
    ensures WellFormed(Override(options, opts, k))
  {
    SetWellFormed(options, k, Member(opts, k));
  }

  /** Repeating a `get` against unchanged model answers gives the same reply. */
  method GetIsRepeatable(c: Controller, h: Hooks, req: Request, db: DbCall -> DbReply)
    returns (first: Result<Reply>, second: Result<Reply>)
    ensures first == second
  {
    var call1, call2;
    call1, first := GetExecute(c, h, req, db);
    call2, second := GetExecute(c, h, req, db);
  }

  /**
   * With no hook overridden, `getAll` filters by the query minus `options`,
   * hides `__v`, reads with the paging options of the query only, and
   * replies with whatever list the model found, an empty one included.
   */
  method DefaultGetAll(c: Controller, req: Request, db: DbCall -> DbReply)
    returns (call: Option<DbCall>, r: Result<Reply>)
    ensures call == Some(Find(Obj(ListFilter(req.query)), [Prop("__v", Num(0.0))],
                              FindOptions(Some([]), Get(req.query, "options"))))
    ensures var reply := db(call.value);
      !Truthy(reply.err) && Truthy(reply.result) ==>
        r == Ok(Reply(200, Obj([Prop(c.name + "s", reply.result)])))
  {
    call, r := GetAllExecute(c, WithDefaults(NoOverrides), req, db);
  }

  /**
   * With no hook overridden, `update` asks for `{ $set: body[name] }` on
   * `{ _id: id }` without upsert, and a missing document is reported as 404.
   */
  method DefaultUpdate(c: Controller, req: Request, db: DbCall -> DbReply)
    returns (call: Option<DbCall>, r: Result<Reply>)
    ensures call == Some(FindOneAndUpdate(IdFilter(c, req), UpdateDocument(c, req), UpdateOptions([])))
    ensures call.value.options == [Prop("upsert", Bool(false)), Prop("new", Bool(true)),
                                   Prop("fields", Obj([Prop("__v", Num(0.0))]))]
    ensures db(call.value) == DbReply(Null, Null) ==> r == Err(NotFound)
  {
    call, r := UpdateExecute(c, WithDefaults(NoOverrides), req, db);
    DefaultUpdateOptions();
  }

  lemma DefaultUpdateOptions()
    ensures UpdateOptions([]) == [Prop("upsert", Bool(false)), Prop("new", Bool(true)),
                                  Prop("fields", Obj([Prop("__v", Num(0.0))]))]
  {
    assert ItemProjection([]) == [Prop("__v", Num(0.0))];
    assert NoUpsert[1..][1..] == [];
  }

  /** A query parameter named `skip` stays in the filter; only `options` feeds the read options. */
  lemma QuerySkipIsAFilter()
    ensures var query := [Prop("skip", Str("5"))];
      && Get(ListFilter(query), "skip") == Str("5")
      && Get(FindOptions(Some([]), Get(query, "options")), "skip") == Undefined
  {
  }

  /** `options={"skip":5,"limit":10,"sort":"-age"}`, once parsed, fills the three read options. */
  lemma ParsedOptionsFillReadOptions()
    ensures var parsed := Obj([Prop("skip", Num(5.0)), Prop("limit", Num(10.0)), Prop("sort", Str("-age"))]);
      var o := FindOptions(Some([]), parsed);
      Get(o, "skip") == Num(5.0) && Get(o, "limit") == Num(10.0) && Get(o, "sort") == Str("-age")
  {
    var parsed := Obj([Prop("skip", Num(5.0)), Prop("limit", Num(10.0)), Prop("sort", Str("-age"))]);
    assert Member(parsed, "skip") == Num(5.0);
    assert Member(parsed, "limit") == Num(10.0);
    assert Member(parsed, "sort") == Str("-age");
    PagingOptionsCopied(parsed, Num(5.0), Num(10.0), Str("-age"));
  }

  lemma PagingOptionsCopied(parsed: Value, skip: Value, limit: Value, sort: Value)
    requires Truthy(skip) && Truthy(limit) && Truthy(sort)
    requires Member(parsed, "skip") == skip && Member(parsed, "limit") == limit && Member(parsed, "sort") == sort
    ensures var o := FindOptions(Some([]), parsed);
      Get(o, "skip") == skip && Get(o, "limit") == limit && Get(o, "sort") == sort
  {
    assert Overrides(parsed, "skip") && Overrides(parsed, "limit") && Overrides(parsed, "sort");
  }

  /** The parsed `options` entry is no part of the filter; the other query parameters are. */
  lemma ParsedOptionsLeaveTheFilter()
    ensures var parsed := Obj([Prop("skip", Num(5.0)), Prop("limit", Num(10.0)), Prop("sort", Str("-age"))]);
      var query := [Prop("age", Str("30")), Prop("options", parsed)];
      Get(query, "options") == parsed && ListFilter(query) == [Prop("age", Str("30"))]
  {
    var parsed := Obj([Prop("skip", Num(5.0)), Prop("limit", Num(10.0)), Prop("sort", Str("-age"))]);
    var query := [Prop("age", Str("30")), Prop("options", parsed)];
    assert query[1..] == [Prop("options", parsed)];
    assert Omit(query[1..], {"options"}) == [];
  }

  /**
   * A created person comes back under `person` without its version field:
   * `{ person: { first_name: "A", last_name: "B" } }`.
   */
  lemma CreatedPersonHasNoVersion(c: Controller, req: Request, convert: Value -> Option<Value>)
    requires c.name == "person"
    requires forall v: Value :: !v.Host? ==> convert(v) == None
    ensures var saved := Obj([Prop("first_name", Str("A")), Prop("last_name", Str("B")), Prop("__v", Num(0.0))]);
      CreateResponse(c, WithDefaults(NoOverrides), req, DbReply(Null, saved), convert)
        == Ok(Reply(200, Obj([Prop("person", Obj([Prop("first_name", Str("A")), Prop("last_name", Str("B"))]))])))
  {
    var props := [Prop("first_name", Str("A")), Prop("last_name", Str("B")), Prop("__v", Num(0.0))];
    var h := WithDefaults(NoOverrides);
    assert Settle(h, req, DbReply(Null, Obj(props))) == Ok(Obj(props));
    assert Serialized(Obj(props), convert) == Ok(Obj(props));
    assert Enumerable(Obj(props)) == props;
    PersonWithoutVersion();
    assert CreateResponse(c, h, req, DbReply(Null, Obj(props)), convert)
      == Ok(Reply(200, Obj([Prop(c.name, Obj(Omit(props, {"__v"})))])));
  }

  lemma PersonWithoutVersion()
    ensures Omit([Prop("first_name", Str("A")), Prop("last_name", Str("B")), Prop("__v", Num(0.0))], {"__v"})
      == [Prop("first_name", Str("A")), Prop("last_name", Str("B"))]
  {
    var props := [Prop("first_name", Str("A")), Prop("last_name", Str("B")), Prop("__v", Num(0.0))];
    assert props[1..][1..] == [props[2]];
    assert Omit(props[1..][1..], {"__v"}) == [];
    assert Omit(props[1..], {"__v"}) == [props[1]];
  }
}
