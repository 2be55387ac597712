/**
 * The generator's `getFlatOperations`: every (endpoint, method) pair of the
 * OpenAPI `paths` object becomes one flat operation record carrying the type
 * references and flags the client template needs. Form-data operations are
 * skipped, and the first helper that throws aborts the whole flattening.
 */
module FlatOperations {
  import opened Wrappers
  import opened Strings
  import opened TypeReferences

  /** One security requirement object: scheme name to scopes. */
  type SecurityRequirement = map<string, seq<string>>

  /** The fields of an OpenAPI operation object that the flattening reads. */
  datatype MethodConfig = MethodConfig(operationId: Option<string>, security: Option<seq<SecurityRequirement>>)

  /** `paths`: endpoints in order, each with its methods in order. */
  type Paths = seq<(string, seq<(string, MethodConfig)>)>

  /**
   * One flat operation. `hasOptions` keeps the value of the `||` chain it
   * is computed by; None stands for `null`.
   */
  datatype FlatOperation = FlatOperation(
    endpoint: string,
    httpMethod: string,
    operationId: Option<string>,
    secure: bool,
    hasOptions: Option<string>,
    hasOptionalOptions: bool,
    responseTypeRef: string,
    dataTypeRef: Option<string>,
    pathParametersTypeRef: Option<string>,
    queryParametersTypeRef: Option<string>,
    hasRequiredQueryParameters: bool)

  /** JavaScript's `a || b` on values that are strings or `null`. */
  function Or(a: Option<string>, b: Option<string>): (r: Option<string>)
    ensures Truthy(r) <==> Truthy(a) || Truthy(b)
    ensures Truthy(a) ==> r == a
  {
    if Truthy(a) then a else b
  }

  /** `!!(methodConfig.security || []).length`. */
  predicate IsSecure(config: MethodConfig) {
    config.security.Some? && |config.security.value| > 0
  }

  /** The operation schema a method's ID selects; an undefined ID is looked up as "undefined". */
  function OperationSchema(config: MethodConfig, operations: map<string, Schema>): Option<Schema> {
    var key := Show(config.operationId);
    if key in operations then Some(operations[key]) else None
  }

  /**
   * The `map` callback for one method: Success(None) for a skipped form-data
   * operation, Failure for the first helper that throws.
   */
  function FlattenMethod(endpoint: string, httpMethod: string, config: MethodConfig, operations: map<string, Schema>)
    : (r: Result<Option<FlatOperation>, string>)
    ensures OperationSchema(config, operations).None? ==> r == Failure(PropertiesOfUndefined)
    // a record describes the method it came from
    ensures r.Success? && r.value.Some? ==>
      && r.value.value.endpoint == endpoint && r.value.value.httpMethod == httpMethod
      && r.value.value.operationId == config.operationId
      && (r.value.value.secure <==> IsSecure(config))
  {
    match OperationSchema(config, operations)
    case None => Failure(PropertiesOfUndefined)
    case Some(schema) =>
      var id := Show(config.operationId);
      match IsFormDataOperation(schema)
      case Failure(e) => Failure(e)
      case Success(true) => Success(None)
      case Success(false) =>
        match GetDataType(id, schema)
        case Failure(e) => Failure(e)
        case Success(dataTypeRef) =>
          var pathRef := GetParametersType(id, schema, "path");
          var queryRef := GetParametersType(id, schema, "query");
          var hasRequiredQuery := HasRequiredParametersType(schema, "query");
          var hasOptionalOptions := !hasRequiredQuery && !Truthy(pathRef) && !Truthy(dataTypeRef);
          match GetFunctionResponseType(id, schema)
          case Failure(e) => Failure(e)
          case Success(responseTypeRef) =>
            Success(Some(FlatOperation(endpoint, httpMethod, config.operationId, IsSecure(config),
                                       Or(pathRef, Or(queryRef, dataTypeRef)), hasOptionalOptions,
                                       responseTypeRef, dataTypeRef, pathRef, queryRef, hasRequiredQuery)))
  }

  /** What the callback makes of one method, and in which order its helpers may fail. */
  lemma FlattenMethodContract(endpoint: string, httpMethod: string, config: MethodConfig, operations: map<string, Schema>)
    // an operation without a schema fails on its first property read
    ensures var r := FlattenMethod(endpoint, httpMethod, config, operations);
      OperationSchema(config, operations).None? ==> r == Failure(PropertiesOfUndefined)
    // form-data operations are skipped, and only they are
    ensures var r := FlattenMethod(endpoint, httpMethod, config, operations);
      r == Success(None) <==>
      OperationSchema(config, operations).Some? && IsFormDataOperation(OperationSchema(config, operations).value) == Success(true)
    ensures var r := FlattenMethod(endpoint, httpMethod, config, operations);
      r.Success? && r.value.Some? ==>
      var schema := OperationSchema(config, operations).value;
      var id := Show(config.operationId);
      var op := r.value.value;
      && IsFormDataOperation(schema) == Success(false)
      && op.endpoint == endpoint && op.httpMethod == httpMethod && op.operationId == config.operationId
      && (op.secure <==> IsSecure(config))
      && GetDataType(id, schema) == Success(op.dataTypeRef)
      && GetFunctionResponseType(id, schema) == Success(op.responseTypeRef)
      && op.pathParametersTypeRef == GetParametersType(id, schema, "path")
      && op.queryParametersTypeRef == GetParametersType(id, schema, "query")
      && op.hasRequiredQueryParameters == HasRequiredParametersType(schema, "query")
      && (Truthy(op.hasOptions) <==>
            Truthy(op.pathParametersTypeRef) || Truthy(op.queryParametersTypeRef) || Truthy(op.dataTypeRef))
      && (op.hasOptionalOptions <==>
            !op.hasRequiredQueryParameters && !Truthy(op.pathParametersTypeRef) && !Truthy(op.dataTypeRef))
    // the form-data check runs first, then the data type, then the response type
    ensures var r := FlattenMethod(endpoint, httpMethod, config, operations);
      OperationSchema(config, operations).Some? ==>
      var schema := OperationSchema(config, operations).value;
      var id := Show(config.operationId);
      && (IsFormDataOperation(schema).Failure? ==> r == Failure(IsFormDataOperation(schema).error))
      && (IsFormDataOperation(schema) == Success(false) && GetDataType(id, schema).Failure? ==>
            r == Failure(GetDataType(id, schema).error))
      && (IsFormDataOperation(schema) == Success(false) && GetDataType(id, schema).Success?
            && GetFunctionResponseType(id, schema).Failure? ==>
            r == Failure(GetFunctionResponseType(id, schema).error))
  {
  }

  /**
   * `results.filter(Boolean)` after a `map` whose callback may throw: the
   * first Failure aborts, Success(None) entries are dropped.
   */
  function Collect<T, E>(results: seq<Result<Option<T>, E>>): (r: Result<seq<T>, E>)
    ensures r.Success? ==> |r.value| <= |results|
  {
    if results == [] then Success([])
    else
      match results[0]
      case Failure(e) => Failure(e)
      case Success(first) =>
        match Collect(results[1..])
        case Failure(e) => Failure(e)
        case Success(rest) => Success((if first.Some? then [first.value] else []) + rest)
  }

  /** The collection succeeds exactly when no callback throws, and otherwise fails with the first error. */
  lemma {:induction false} CollectFailsFirst<T, E>(results: seq<Result<Option<T>, E>>)
    ensures Collect(results).Success? <==> forall k :: 0 <= k < |results| ==> results[k].Success?
    ensures Collect(results).Failure? ==>
      exists k :: 0 <= k < |results| && results[k] == Failure(Collect(results).error)
                  && forall j :: 0 <= j < k ==> results[j].Success?
  {
    if results != [] {
      CollectFailsFirst(results[1..]);
      if results[0].Success? && Collect(results).Failure? {
        var k :| 0 <= k < |results[1..]| && results[1..][k] == Failure(Collect(results[1..]).error)
                 && forall j :: 0 <= j < k ==> results[1..][j].Success?;
        assert results[k + 1] == results[1..][k];
        assert forall j :: 1 <= j < k + 1 ==> results[j] == results[1..][j - 1];
      }
      assert forall k :: 1 <= k < |results| ==> results[k] == results[1..][k - 1];
    }
  }

  /** A collected value is exactly one that some callback returned. */
  lemma {:induction false} CollectMembers<T, E>(results: seq<Result<Option<T>, E>>, x: T)
    requires Collect(results).Success?
    ensures x in Collect(results).value <==> exists k :: 0 <= k < |results| && results[k] == Success(Some(x))
  {
    if results != [] {
      var tail := results[1..];
      CollectMembers(tail, x);
      if k :| 0 <= k < |results| && results[k] == Success(Some(x)) {
        if k > 0 {
          assert tail[k - 1] == results[k];
        }
      }
      if j :| 0 <= j < |tail| && tail[j] == Success(Some(x)) {
        assert results[j + 1] == tail[j];
      }
    }
  }

  /** The callback's results for the methods of one endpoint, in order. */
  function MethodResults(endpoint: string, methods: seq<(string, MethodConfig)>, operations: map<string, Schema>)
    : (rs: seq<Result<Option<FlatOperation>, string>>)
    ensures |rs| == |methods|
    ensures forall k :: 0 <= k < |methods| ==> rs[k] == FlattenMethod(endpoint, methods[k].0, methods[k].1, operations)
  {
    seq(|methods|, k requires 0 <= k < |methods| => FlattenMethod(endpoint, methods[k].0, methods[k].1, operations))
  }

  /** The flat records of one endpoint. */
  function FlattenEndpoint(endpoint: string, methods: seq<(string, MethodConfig)>, operations: map<string, Schema>)
    : (r: Result<seq<FlatOperation>, string>)
    ensures r.Success? ==> |r.value| <= |methods|
  {
    Collect(MethodResults(endpoint, methods, operations))
  }

  /** The `reduce` that spreads each endpoint's records after the earlier ones. */
  function Gather<T, E>(results: seq<Result<seq<T>, E>>): (r: Result<seq<T>, E>)
  {
    if results == [] then Success([])
    else
      var n := |results| - 1;
      match Gather(results[..n])
      case Failure(e) => Failure(e)
      case Success(acc) =>
        match results[n]
        case Failure(e) => Failure(e)
        case Success(last) => Success(acc + last)
  }

  /** The gathering only succeeds when every part does. */
  lemma {:induction false} GatherNeedsEveryPart<T, E>(results: seq<Result<seq<T>, E>>)
    ensures Gather(results).Success? ==> forall i :: 0 <= i < |results| ==> results[i].Success?
  {
    if results != [] && Gather(results).Success? {
      var n := |results| - 1;
      GatherNeedsEveryPart(results[..n]);
      assert forall i :: 0 <= i < n ==> results[..n][i] == results[i];
    }
  }

  /** A gathered value is exactly one of some part's values. */
  lemma {:induction false} GatherMembers<T, E>(results: seq<Result<seq<T>, E>>, x: T)
    requires Gather(results).Success?
    ensures x in Gather(results).value <==> exists i :: 0 <= i < |results| && results[i].Success? && x in results[i].value
  {
    if results != [] {
      var n := |results| - 1;
      GatherNeedsEveryPart(results);
      GatherMembers(results[..n], x);
      assert forall i :: 0 <= i < n ==> results[..n][i] == results[i];
    }
  }

  /** The values of successful parts, first part first: the spread of each part after the earlier ones. */
  function Values<T, E>(results: seq<Result<seq<T>, E>>): seq<T>
    requires forall i :: 0 <= i < |results| ==> results[i].Success?
  {
    if results == [] then [] else results[0].value + Values(results[1..])
  }

  /** Appending a successful part appends its values. */
  lemma {:induction false} ValuesAppend<T, E>(results: seq<Result<seq<T>, E>>, last: Result<seq<T>, E>)
    requires forall i :: 0 <= i < |results| ==> results[i].Success?
    requires last.Success?
    ensures Values(results + [last]) == Values(results) + last.value
  {
    if results != [] {
      assert (results + [last])[1..] == results[1..] + [last];
      ValuesAppend(results[1..], last);
    }
  }

  /** The gathering succeeds iff every part does, and then it is the parts' values one after another. */
  lemma {:induction false} GatherConcatenates<T, E>(results: seq<Result<seq<T>, E>>)
    ensures Gather(results).Success? <==> forall i :: 0 <= i < |results| ==> results[i].Success?
    ensures Gather(results).Success? ==> Gather(results).value == Values(results)
  {
    if results != [] {
      var n := |results| - 1;
      GatherConcatenates(results[..n]);
      assert forall i :: 0 <= i < n ==> results[..n][i] == results[i];
      assert results == results[..n] + [results[n]];
      if Gather(results).Success? {
        ValuesAppend(results[..n], results[n]);
      }
    }
  }

  /** The flat records of every endpoint, in order. */
  function EndpointResults(paths: Paths, operations: map<string, Schema>): (rs: seq<Result<seq<FlatOperation>, string>>)
    ensures |rs| == |paths|
    ensures forall i :: 0 <= i < |paths| ==> rs[i] == FlattenEndpoint(paths[i].0, paths[i].1, operations)
  {
    seq(|paths|, i requires 0 <= i < |paths| => FlattenEndpoint(paths[i].0, paths[i].1, operations))
  }

  /** `getFlatOperations({ paths }, jsonSchemaTypes)`, given `definitions.operations.properties`. */
  function GetFlatOperations(paths: Paths, operations: map<string, Schema>): (r: Result<seq<FlatOperation>, string>)
    ensures paths == [] ==> r == Success([])
    // a success means every endpoint flattened
    ensures r.Success? ==> forall i :: 0 <= i < |paths| ==> FlattenEndpoint(paths[i].0, paths[i].1, operations).Success?
  {
    var rs := EndpointResults(paths, operations);
    GatherNeedsEveryPart(rs);
    Gather(rs)
  }

  /** A record is in the output exactly when some method of some endpoint yields it. */
  lemma FlatOperationOrigin(paths: Paths, operations: map<string, Schema>, op: FlatOperation)
    requires GetFlatOperations(paths, operations).Success?
    ensures op in GetFlatOperations(paths, operations).value <==>
      exists i, k :: (0 <= i < |paths| && 0 <= k < |paths[i].1|
        && FlattenMethod(paths[i].0, paths[i].1[k].0, paths[i].1[k].1, operations) == Success(Some(op)))
  {
    var rs := EndpointResults(paths, operations);
    GatherNeedsEveryPart(rs);
    GatherMembers(rs, op);
    forall i | 0 <= i < |paths|
      ensures op in rs[i].value <==> exists k :: (0 <= k < |paths[i].1|
        && FlattenMethod(paths[i].0, paths[i].1[k].0, paths[i].1[k].1, operations) == Success(Some(op)))
    {
      CollectMembers(MethodResults(paths[i].0, paths[i].1, operations), op);
    }
  }

  /**
   * The output lists each endpoint's records in the order of the paths, and
   * within an endpoint in the order of its methods, each as often as its
   * method yields it.
   */
  lemma FlatOperationsInOrder(paths: Paths, operations: map<string, Schema>)
    requires GetFlatOperations(paths, operations).Success?
    ensures forall i :: 0 <= i < |paths| ==> FlattenEndpoint(paths[i].0, paths[i].1, operations).Success?
    ensures GetFlatOperations(paths, operations).value == Values(EndpointResults(paths, operations))
    ensures paths != [] ==>
      GetFlatOperations(paths, operations).value
        == FlattenEndpoint(paths[0].0, paths[0].1, operations).value + Values(EndpointResults(paths, operations)[1..])
  {
    GatherConcatenates(EndpointResults(paths, operations));
  }

  /** The flattening only succeeds when no method's callback throws. */
  lemma FlatOperationsNeedEveryMethod(paths: Paths, operations: map<string, Schema>, i: int, k: int)
    requires GetFlatOperations(paths, operations).Success?
    requires 0 <= i < |paths| && 0 <= k < |paths[i].1|
    ensures FlattenMethod(paths[i].0, paths[i].1[k].0, paths[i].1[k].1, operations).Success?
  {
    var rs := EndpointResults(paths, operations);
    GatherNeedsEveryPart(rs);
    CollectFailsFirst(MethodResults(paths[i].0, paths[i].1, operations));
  }

  /** Every flattened record is a secure operation exactly when its method lists a security requirement. */
  lemma SecureIffSecurityListed(paths: Paths, operations: map<string, Schema>, op: FlatOperation)
    requires GetFlatOperations(paths, operations).Success? && op in GetFlatOperations(paths, operations).value
    ensures exists i, k :: (0 <= i < |paths| && 0 <= k < |paths[i].1|
      && op.endpoint == paths[i].0 && op.httpMethod == paths[i].1[k].0
      && (op.secure <==> IsSecure(paths[i].1[k].1)))
  {
    FlatOperationOrigin(paths, operations, op);
    var i, k :| 0 <= i < |paths| && 0 <= k < |paths[i].1|
      && FlattenMethod(paths[i].0, paths[i].1[k].0, paths[i].1[k].1, operations) == Success(Some(op));
    FlattenMethodContract(paths[i].0, paths[i].1[k].0, paths[i].1[k].1, operations);
  }

  /** No record in the output describes a form-data operation. */
  lemma NoFormDataOperations(paths: Paths, operations: map<string, Schema>, op: FlatOperation)
    requires GetFlatOperations(paths, operations).Success? && op in GetFlatOperations(paths, operations).value
    ensures Show(op.operationId) in operations
    ensures IsFormDataOperation(operations[Show(op.operationId)]) == Success(false)
  {
    FlatOperationOrigin(paths, operations, op);
    var i, k :| 0 <= i < |paths| && 0 <= k < |paths[i].1|
      && FlattenMethod(paths[i].0, paths[i].1[k].0, paths[i].1[k].1, operations) == Success(Some(op));
    FlattenMethodContract(paths[i].0, paths[i].1[k].0, paths[i].1[k].1, operations);
  }

  /** A single form-data method yields no record at all. */
  lemma FormDataMethodSkipped(endpoint: string, httpMethod: string, config: MethodConfig, operations: map<string, Schema>)
    requires OperationSchema(config, operations).Some?
    requires IsFormDataOperation(OperationSchema(config, operations).value) == Success(true)
    ensures GetFlatOperations([(endpoint, [(httpMethod, config)])], operations) == Success([])
  {
    FlattenMethodContract(endpoint, httpMethod, config, operations);
    var methods := [(httpMethod, config)];
    var rs := MethodResults(endpoint, methods, operations);
    assert rs == [Success(None)];
    assert rs[1..] == [];
    assert Collect(rs[1..]) == Success([]);
    assert Collect(rs) == Success([] + []);
    assert FlattenEndpoint(endpoint, methods, operations) == Success([]);
    var es := EndpointResults([(endpoint, methods)], operations);
    assert es == [Success([])];
    assert es[..0] == [];
    assert Gather(es[..0]) == Success([]);
  }
}
