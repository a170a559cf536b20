# ResourceController, modelled in Dafny

This project models `ResourceController` from `lib/ResourceController.js`. It is the
base class that takes a model handle, a resource name and an id-field name, and
produces the five CRUD action descriptors `getAll`, `create`, `get`, `update` and
`delete`. Each descriptor has a `validate` (and, for `getAll`, a `sanitize`) and an
`execute` pipeline. A pipeline runs hooks (`authorize`, `updateFilter`,
`preCreate`, `prepareProjection`, `prepareOptions`, `postExecute`), makes one model
call, maps the call's completion onto HTTP errors, and wraps the result in the
response envelope.

Files and modules:

- `js_values.dfy`, module `JsValues`: the JavaScript values the controller handles.
  Truthiness is exact. Plain objects are ordered property lists, so "the first key
  of a projection" means the first key inserted (integer-like keys aside, see
  "## Left out"). Property read, property write
  and underscore's `_.omit` are given their JavaScript meaning and proved
  correct: read after write, keys kept in place, keys stay distinct.
- `results.dfy`, module `Results`: how a step ends (`Ok`/`Err`, `Pass`/`Fail`) and
  the failures it can report (`HttpError(status, message)`, thrown exceptions,
  other truthy error values). The async library's `waterfall`/`series` become plain
  sequential composition on these.
- `controller.dfy`, module `ResourceController`: construction, the `resourceId`
  getter, projection exclusivity, the default hooks, the id check before
  `authorize`, and the completion handler of model calls.
- `actions.dfy`, module `ResourceActions`: the validate/sanitize/execute pipelines
  of the five actions. Each `execute` is a method that updates its local
  filter/options/projection dictionaries step by step, as the source does. The
  model handle is a parameter `db: DbCall -> DbReply`. Each method returns the
  exact `DbCall` it made (the ORM method and its arguments) and the response or
  error. The spec functions `ListFilter`, `FindOptions`, `ListProjection`,
  `ItemProjection` and `UpdateOptions` state what goes to the model.
- `properties.dfy`, module `ControllerProperties`: facts a caller can derive from
  the contracts. Examples: objects sent to the model are well formed, `get` is
  repeatable, behaviour with the default hooks, and the create example for a
  person.

External parts become parameters:

- the model handle's calls: `db`, answering a `DbCall` with `(err, result)`;
- the request validator's verdict on the `options` query parameter: `queryErrors`;
- `JSON.parse`: `parse`;
- a result's own `toJSON`/`toObject`: `convert`;
- every hook: a field of `Hooks`.

Three behaviours of the code that a reader may not expect:

- `getAll` sets `__v: 0` on every exclusive projection and overwrites an explicit
  `__v` (lines 193-194). Only `get` and `update` respect an explicit `__v` (lines
  303-304 and 366-367). See `ProjectionRulesDifferOnExplicitVersion`.
- A plain query parameter `skip` stays in the `getAll` filter. Only the parsed
  `options` query parameter feeds `skip`/`limit`/`sort` (lines 165 and 178-187).
  See `QuerySkipIsAFilter`.
- For a list, an empty array is truthy. An empty result is therefore a 200 with
  `[]`, not a 404. See `EmptyListIsFound`.

## Model

| member | source | states |
|---|---|---|
| JsValues.Get | lib/ResourceController.js:303 | reading a key an object does not have gives `undefined` |
| JsValues.Set | lib/ResourceController.js:180-187 | after `o[k] = v`, `o[k]` reads `v`, every other key reads as before, and the key list is unchanged when `k` already existed or else gets `k` appended |
| JsValues.Omit | lib/ResourceController.js:165 | `_.omit(o, ks)` reads `undefined` on the keys in `ks`, reads as `o` everywhere else, and has exactly the keys of `o` outside `ks` |
| JsValues.SetWellFormed | lib/ResourceController.js:194 | a property write never duplicates a key |
| JsValues.OmitWellFormed | lib/ResourceController.js:259 | `_.omit` never duplicates a key |
| JsValues.SetTwice | lib/ResourceController.js:364-367 | writing a key twice leaves only the second value |
| JsValues.OmitSet | lib/ResourceController.js:158 | writing a key that is then omitted changes nothing in the omitted object |
| JsValues.Truthy | lib/ResourceController.js:97-107 | a value is truthy exactly when it is none of `undefined`, `null`, `false`, `0`, `NaN` and `""`, the test behind every `!x` and `if (x)` of the controller (also lines 39, 54-55, 157, 175-186) |
| JsValues.Keys | lib/ResourceController.js:19 | `Object.keys` gives one key per property, the i-th key being the i-th property's name |
| JsValues.Member | lib/ResourceController.js:180-186 | reading a property of an object value is reading that object; a truthy read implies the value is an object that has the key |
| JsValues.Enumerable | lib/ResourceController.js:259 | what `_.omit` copies out of a value: an object's own properties, an array's elements under the keys "0", "1", ..., nothing for a primitive |
| ResourceController.Construct | lib/ResourceController.js:92-118 | construction fails with "Options must define model property" exactly when the model is falsy, and otherwise with "... name property" exactly when the name is missing; on success `resourceId` is the given id, or `name + "Id"` when none was given |
| ResourceController.IsProjectionExclusive | lib/ResourceController.js:18-26 | true iff the projection has no keys or the value at its first key is `false` or `0` |
| ResourceController.ExclusivityIgnoresLaterKeys | lib/ResourceController.js:18-26 | entries after the first never change the verdict |
| ResourceController.ExclusivityDependsOnOrder | lib/ResourceController.js:18-26 | the same two entries in the other order give the other verdict |
| ResourceController.WithDefaults | lib/ResourceController.js:28-35 | each hook is the override when there is one, and otherwise the default: authorize passes, filters/documents/results pass through unchanged, projections and options start as `{}` |
| ResourceController.CheckIdThenAuthorize | lib/ResourceController.js:37-44 | a missing or falsy id parameter yields 400 "Missing resource id"; with one, the verdict is exactly `authorize`'s; passing implies the id parameter exists |
| ResourceController.MissingIdIgnoresAuthorize | lib/ResourceController.js:37-44 | without an id, the verdict is the same whatever `authorize` would say, i.e. it is not consulted |
| ResourceController.DbCompletion | lib/ResourceController.js:52-59 | a truthy error gives 400 "Failed to get resource" whatever the result; otherwise a falsy result gives 404 "Not Found"; otherwise the result is passed on unchanged, and only then |
| ResourceController.EmptyListIsFound | lib/ResourceController.js:55 | an empty list result is passed on, not turned into a 404 |
| ResourceController.Settle | lib/ResourceController.js:306-311 | after a model call, the completion mapping applies first; `postExecute` is applied only to a successful result, and success implies a successful model call |
| ResourceActions.ValidateGetAll | lib/ResourceController.js:141-154 | a failed query-string check is the error and `authorize` is skipped; otherwise the verdict is `authorize`'s |
| ResourceActions.Sanitize | lib/ResourceController.js:156-161 | a truthy `options` is replaced by its parse (a throwing parse is the error); a falsy one leaves the request as is; params, body, the query's keys, every other query value and the list filter are unchanged |
| ResourceActions.ListFilter | lib/ResourceController.js:165 | the filter is the query minus exactly the `options` key |
| ResourceActions.Override | lib/ResourceController.js:180-181 | `options[k]` takes `opts[k]` when that is truthy; nothing else changes |
| ResourceActions.FindOptions | lib/ResourceController.js:173-187 | `skip`/`limit`/`sort` take the parsed query option's value exactly when it is truthy; every other option is the one `prepareOptions` gave (or absent when it gave a falsy value); the keys are those plus the overridden ones |
| ResourceActions.ListProjection | lib/ResourceController.js:189-194 | an exclusive projection gets `__v = 0` even over an explicit `__v` (appended as the last key when new), and stays exclusive; a non-exclusive one is unchanged; no other key changes |
| ResourceActions.ListResponse | lib/ResourceController.js:204-211 | on success the reply is 200 with a body whose only key is `name + "s"`, holding the post-processed result; any earlier error is the outcome |
| ResourceActions.GetAllExecute | lib/ResourceController.js:163-214 | hooks run in the order updateFilter, prepareOptions, prepareProjection; the first failure is the result and the model is not called; otherwise `find` gets the updated filter, `ListProjection` and `FindOptions`, and the reply is `ListResponse` of the model's answer |
| ResourceActions.ValidateCreate | lib/ResourceController.js:237 | create's validation is the `authorize` verdict, with no id check, so it passes every request that the validate step of an item action passes, whatever id parameter is checked |
| ResourceActions.CreateAcceptsWithoutId | lib/ResourceController.js:237 | a request that `authorize` passes and that lacks the resource id parameter passes create's validation but fails that of get/update/delete with 400 "Missing resource id" |
| ResourceActions.ValidateItem | lib/ResourceController.js:286 | the validate step of get, update and delete (also lines 343 and 404) checks the controller's own `resourceId`: without it, 400 "Missing resource id"; with it, `authorize`'s verdict; passing implies the parameter exists |
| ResourceActions.Serialized | lib/ResourceController.js:258 | serializing throws exactly for `null`/`undefined`; a value with `toJSON` (or else `toObject`) becomes that conversion's result; a value with neither is used as is |
| ResourceActions.CreateResponse | lib/ResourceController.js:254-262 | on success the body's only key is `name`, holding an object whose keys are exactly the serialized result's keys other than `__v`, each reading as there; errors from the model, `postExecute` or serialization are the outcome |
| ResourceActions.CreateExecute | lib/ResourceController.js:239-264 | `body[name]` goes through `preCreate`, and its failure ends the request before the model; otherwise `create` gets the prepared document and the reply is `CreateResponse` |
| ResourceActions.IdFilter | lib/ResourceController.js:289-290 | the item filter has the single key `_id`, holding the request's resource id parameter (also lines 346-347 and 407-408) |
| ResourceActions.ItemProjection | lib/ResourceController.js:301-304 | an exclusive projection without `__v` gets `__v = 0`, appended as its last key, and stays exclusive; an explicit `__v` or a non-exclusive projection is kept; no other key changes |
| ResourceActions.ProjectionRulesAgreeWithoutVersion | lib/ResourceController.js:303-304 | when `__v` is not given, the getAll and get/update rules give the same projection |
| ResourceActions.ProjectionRulesDifferOnExplicitVersion | lib/ResourceController.js:193-194 | with an explicit `__v: 1`, getAll sends `__v: 0` and get keeps `__v: 1` |
| ResourceActions.ItemProjectionStepAsWritten | lib/ResourceController.js:301-306 | as written, a failing `prepareProjection` leads to the TypeError of `Object.keys(undefined)`, never to the hook's error |
| ResourceActions.ProjectionHookErrorLostAsWritten | lib/ResourceController.js:301-306 | a 403 from the hook does not reach the router as written |
| ResourceActions.ItemProjectionStep | lib/ResourceController.js:301-306 | corrected: a failing hook is the error, as in `getAll` at line 190; a successful one gives `ItemProjection` |
| ResourceActions.ProjectionHookErrorKept | lib/ResourceController.js:301-306 | the corrected and as-written steps agree exactly when the hook succeeds (or itself reports that TypeError) |
| ResourceActions.ItemResponse | lib/ResourceController.js:313-318 | on success the reply is 200 with a body whose only key is `name`, holding the post-processed result |
| ResourceActions.GetExecute | lib/ResourceController.js:288-321 | `updateFilter` on `{_id: params[id]}`, then the projection hook, each failure ending the request before the model; otherwise `findOne` gets the updated filter and `ItemProjection`, and the reply is `ItemResponse`. A failing projection hook gives its own error: this is the corrected behaviour of the Finding below, not the as-written one |
| ResourceActions.UpdateDocument | lib/ResourceController.js:359 | the update document has the single key `$set`, holding the body's entry under the resource name |
| ResourceActions.UpdateOptions | lib/ResourceController.js:360-367 | the update options read `upsert: false`, `new: true` and `fields` = the get-rule projection, and have exactly these three keys |
| ResourceActions.UpdateOptionsFor | lib/ResourceController.js:360-367 | writing the projection into `option.fields` and then `__v` through the shared object yields `UpdateOptions` |
| ResourceActions.FieldsWrittenTwice | lib/ResourceController.js:364-367 | the two writes to `fields` amount to one write of the final projection |
| ResourceActions.UpdateExecute | lib/ResourceController.js:345-384 | `findOneAndUpdate` gets the updated filter, `{$set: body[name]}` and `UpdateOptions`; whenever the model is called, `upsert` is false and `new` is true; a missing document is a 404; hook failures end the request before the model. A failing projection hook gives its own error: this is the corrected behaviour of the Finding below (lines 362-369), not the as-written one |
| ResourceActions.DeleteResponse | lib/ResourceController.js:423-427 | on success the reply is 200 with `true`, whatever was removed or `postExecute` returned |
| ResourceActions.DeleteExecute | lib/ResourceController.js:406-429 | `findOneAndRemove` gets the updated `{_id: params[id]}` filter; any success replies 200 `true` |
| ControllerProperties.ModelArgumentsWellFormed | lib/ResourceController.js:163-199 | filters, read options, projections and update options built from well-formed inputs have distinct keys |
| ControllerProperties.GetIsRepeatable | lib/ResourceController.js:288-321 | two `get`s with the same request against the same model answers give the same reply |
| ControllerProperties.DefaultGetAll | lib/ResourceController.js:163-214 | with default hooks, `find` gets the query minus `options`, the projection `{__v: 0}` and only the query's paging options; a found list comes back as `{ name+"s": list }` |
| ControllerProperties.DefaultUpdate | lib/ResourceController.js:345-384 | with default hooks, the options are exactly `{upsert: false, new: true, fields: {__v: 0}}`, and an unknown id gives 404 |
| ControllerProperties.QuerySkipIsAFilter | lib/ResourceController.js:165-187 | a plain `skip` query parameter is a filter term, not a read option |
| ControllerProperties.ParsedOptionsFillReadOptions | lib/ResourceController.js:178-187 | parsed `{"skip":5,"limit":10,"sort":"-age"}` fills the three read options |
| ControllerProperties.ParsedOptionsLeaveTheFilter | lib/ResourceController.js:165 | with `age=30&options=...`, the filter is exactly `{age: "30"}` |
| ControllerProperties.CreatedPersonHasNoVersion | lib/ResourceController.js:254-262 | a saved `{first_name, last_name, __v}` comes back as `{person: {first_name, last_name}}`, for any conversion that, as in JavaScript, finds no `toJSON`/`toObject` on plain values |

## Left out

- The async library, callbacks and `res.status().json()`: pipelines are sequential compositions, and the reply is returned as `Reply(status, body)`.
- The request validator (`checkQuery(...).optional().isJSON()`, `validationErrors`): its verdict is the input `queryErrors`.
- `JSON.parse`: the parameter `parse` of `Sanitize`.
- The ORM calls: the parameter `db`. What the model stores, and concurrent requests against shared model state, are outside this component.
- `toJSON`/`toObject`: the parameter `convert`, whose answer is taken as given.
- `BaseController` and `HttpError` are not part of this model. `HttpError` is a status/message pair.
- ResourceActions.GetExecute: for a failing `prepareProjection` hook, models the intended behaviour (the hook's error ends the request), not the source as written (a TypeError from `Object.keys(undefined)`); see "## Findings".
- ResourceActions.UpdateExecute: the same as ResourceActions.GetExecute, for lines 362-369.
- GetAllExecute, GetExecute, UpdateExecute: the source writes `skip`/`limit`/`sort` into the object `prepareOptions` handed back (lines 180-187), and `__v` into the object `prepareProjection` handed back (lines 194, 304, 367), in place. A hook that hands back the same object on every request would see those writes on its next request. For example, with `options={"skip":5}` on one request and no options on the next, the source still sends `skip: 5` the second time. The model copies the hook's answer, so each request starts from what the hook returned.
- JsValues.Enumerable: a host object (an ORM document) that has neither `toJSON` nor `toObject` is modelled with no enumerable properties, so `create` replies `{ <name>: {} }` for it; `_.omit` would copy its own enumerable properties, which the model does not represent.
- GetAllExecute, UpdateExecute, GetIsRepeatable: hooks are modelled as functions that keep no state between calls and never modify `req`. In the source each hook receives the live request. The controller reads `req.query.options` at line 178, after `updateFilter` and `prepareOptions` have run, and `req.body[name]` at line 359, after `updateFilter` has run. A hook that changes the request there (say, a `prepareOptions` that deletes `req.query.options.skip`) changes what the source sends, while the model reads the request as it arrived. A hook with state could make two identical `get`s differ, which `GetIsRepeatable` rules out only under this assumption.
- `Sanitize`: the update of `req.query.options` in place is modelled as returning the updated request. A hook holding the same request object would have seen the change; the model passes the updated request to later steps explicitly.
- Hooks answer with exactly one of an error or a value. A hook that calls back with both an error and a value, with a falsy error, or more than once is not modelled.
- `prepareProjection` is taken to return an object. A `null` projection (where `Object.keys` throws) and a truthy non-object from `prepareOptions` are not modelled. `None` stands for every falsy options value.
- Construction options: `name` and `id` are strings, with `""` standing for any falsy value. A falsy `opts` behaves like all-absent options. Truthy non-string names or ids (and their string conversion) are not modelled.
- Property reads on values other than plain objects read `undefined`. In JavaScript an array has `sort` (Array.prototype.sort). A JSON array given as `options` would therefore override `sort` with that function; the model ignores it.
- `Object.keys` lists integer-like keys first, in numeric order. The model keeps plain insertion order for every key.
- Numbers are reals plus `NaN`. Floating-point rounding and infinities are not modelled.
- `_.omit` on a string primitive: older underscore releases copy its characters. The model yields `{}`, as underscore 1.8 does.
- An exception thrown inside a callback (the TypeError of `create` on a `null` result, and of the as-written projection step) is modelled as that pipeline's error. In the source it escapes the callback chain instead.

## Findings

| source | as written | input that shows it | evidently intended | confidence | as-written member | corrected member |
|---|---|---|---|---|---|---|
| lib/ResourceController.js:301-306 | `get` (and `update`, lines 362-369) ignore the `err` that `prepareProjection` passes and call `isProjectionExclusive(projection)` on the `undefined` projection. `Object.keys(undefined)` throws a TypeError. | a `prepareProjection` hook that calls back with `HttpError(403, "Forbidden")` | the hook's error ends the request, as `getAll` does at line 190 | medium, not executed | `ResourceActions.ItemProjectionStepAsWritten` | `ResourceActions.ItemProjectionStep` |
