/**
 * The generator's `validateOapiSpec`: before any client is generated the
 * specification must name a 2.x or 3.x version, and the flat operations
 * must all carry operation IDs, with no ID used twice. Each failed
 * `assert.ok` is a Failure carrying its message.
 */
module SpecValidation {
  import opened Wrappers
  import opened Strings
  import opened FlatOperations

  const NoVersionMessage := "Expected either the `swagger` or `openapi` properties to exist."

  function BadVersionMessage(key: string, version: string): string {
    "Expected `" + key + "` to be >= 2 and < 4, got \"" + version + "\"."
  }

  function MissingIdsMessage(endpoints: seq<string>): string {
    "Expected all endpoints to have operation IDs: " + Join(endpoints, ",") + "."
  }

  function DuplicateIdsMessage(ids: seq<string>): string {
    "Expected operation IDs to be unique but found duplicates: " + Join(ids, ",") + "."
  }

  /** `swagger || openapi`. */
  function Version(swagger: Option<string>, openapi: Option<string>): (v: Option<string>)
    ensures Truthy(swagger) ==> v == swagger
    ensures !Truthy(swagger) ==> v == openapi
  {
    if Truthy(swagger) then swagger else openapi
  }

  /** `swagger ? 'swagger' : 'openapi'`. */
  function VersionKey(swagger: Option<string>): string {
    if Truthy(swagger) then "swagger" else "openapi"
  }

  /** `/^[2-3]\./.test(version)`. */
  predicate SupportedVersion(v: string) {
    |v| >= 2 && '2' <= v[0] <= '3' && v[1] == '.'
  }

  /** The endpoints of the operations without a (truthy) operation ID, in order. */
  function EndpointsWithoutIds(operations: seq<FlatOperation>): (r: seq<string>)
    ensures |r| <= |operations|
    ensures r == [] <==> forall k :: 0 <= k < |operations| ==> Truthy(operations[k].operationId)
  {
    if operations == [] then []
    else
      var rest := EndpointsWithoutIds(operations[1..]);
      assert forall k :: 1 <= k < |operations| ==> operations[k] == operations[1..][k - 1];
      if Truthy(operations[0].operationId) then rest else [operations[0].endpoint] + rest
  }

  /** `operations.map(({ operationId }) => operationId)`, rendered as strings. */
  function OperationIds(operations: seq<FlatOperation>): (ids: seq<string>)
    ensures |ids| == |operations|
    ensures forall k :: 0 <= k < |operations| ==> ids[k] == Show(operations[k].operationId)
  {
    seq(|operations|, k requires 0 <= k < |operations| => Show(operations[k].operationId))
  }

  /** `xs.filter((item, index) => xs.indexOf(item) !== index)`: every element that already occurred earlier. */
  function Duplicates<T(==)>(xs: seq<T>): seq<T> {
    if xs == [] then []
    else
      var n := |xs| - 1;
      Duplicates(xs[..n]) + (if xs[n] in xs[..n] then [xs[n]] else [])
  }

  /** The duplicates list holds every occurrence of a value except its first. */
  lemma {:induction false} DuplicatesCount<T>(xs: seq<T>, x: T)
    ensures multiset(Duplicates(xs))[x] == if x in xs then multiset(xs)[x] - 1 else 0
  {
    if xs != [] {
      var n := |xs| - 1;
      DuplicatesCount(xs[..n], x);
      assert xs == xs[..n] + [xs[n]];
      assert multiset(xs) == multiset(xs[..n]) + multiset{xs[n]};
      if x in xs[..n] {
        assert x in multiset(xs[..n]);
      }
    }
  }

  /** No duplicates are reported exactly when all elements are distinct. */
  lemma {:induction false} DuplicatesEmptyIffDistinct<T>(xs: seq<T>)
    ensures Duplicates(xs) == [] <==> forall i, j :: 0 <= i < j < |xs| ==> xs[i] != xs[j]
  {
    if xs != [] {
      var n := |xs| - 1;
      var prefix := xs[..n];
      DuplicatesEmptyIffDistinct(prefix);
      assert forall i :: 0 <= i < n ==> prefix[i] == xs[i];
      assert xs[n] in prefix <==> exists i :: 0 <= i < n && xs[i] == xs[n];
    }
  }

  /** `validateOapiSpec(oapiSpec, operations)`, failing on the first assertion that does not hold. */
  function ValidateOapiSpec(swagger: Option<string>, openapi: Option<string>, operations: seq<FlatOperation>)
    : (r: Result<(), string>)
    ensures !Truthy(Version(swagger, openapi)) ==> r == Failure(NoVersionMessage)
    ensures Truthy(Version(swagger, openapi)) && !SupportedVersion(Version(swagger, openapi).value) ==>
      r == Failure(BadVersionMessage(VersionKey(swagger), Version(swagger, openapi).value))
    ensures r.Success? <==>
      && Truthy(Version(swagger, openapi)) && SupportedVersion(Version(swagger, openapi).value)
      && (forall k :: 0 <= k < |operations| ==> Truthy(operations[k].operationId))
      && (forall i, j :: 0 <= i < j < |operations| ==> operations[i].operationId != operations[j].operationId)
    ensures (Truthy(Version(swagger, openapi)) && SupportedVersion(Version(swagger, openapi).value)
             && EndpointsWithoutIds(operations) != []) ==>
      r == Failure(MissingIdsMessage(EndpointsWithoutIds(operations)))
    ensures (Truthy(Version(swagger, openapi)) && SupportedVersion(Version(swagger, openapi).value)
             && EndpointsWithoutIds(operations) == [] && Duplicates(OperationIds(operations)) != []) ==>
      r == Failure(DuplicateIdsMessage(Duplicates(OperationIds(operations))))
  {
    var version := Version(swagger, openapi);
    if !Truthy(version) then Failure(NoVersionMessage)
    else if !SupportedVersion(version.value) then Failure(BadVersionMessage(VersionKey(swagger), version.value))
    else
      var missing := EndpointsWithoutIds(operations);
      if missing != [] then Failure(MissingIdsMessage(missing))
      else
        var ids := OperationIds(operations);
        var duplicates := Duplicates(ids);
        DuplicatesEmptyIffDistinct(ids);
        assert (forall i, j :: 0 <= i < j < |ids| ==> ids[i] != ids[j]) <==>
               (forall i, j :: 0 <= i < j < |operations| ==> operations[i].operationId != operations[j].operationId);
        if duplicates != [] then Failure(DuplicateIdsMessage(duplicates)) else Success(())
  }

  /** A 3.x OpenAPI document passes when its operations have distinct IDs. */
  lemma OpenApi3Accepted(rest: string, operations: seq<FlatOperation>)
    requires forall k :: 0 <= k < |operations| ==> Truthy(operations[k].operationId)
    requires forall i, j :: 0 <= i < j < |operations| ==> operations[i].operationId != operations[j].operationId
    ensures ValidateOapiSpec(None, Some("3." + rest), operations) == Success(())
  {
  }

  /** A 1.x Swagger document is refused and the message names the `swagger` key. */
  lemma Swagger1Refused(rest: string, openapi: Option<string>, operations: seq<FlatOperation>)
    ensures ValidateOapiSpec(Some("1." + rest), openapi, operations)
      == Failure(BadVersionMessage("swagger", "1." + rest))
  {
  }

  /** An empty `swagger` falls through to `openapi`, as `||` does. */
  lemma EmptySwaggerFallsThrough(openapi: Option<string>, operations: seq<FlatOperation>)
    ensures ValidateOapiSpec(Some(""), openapi, operations) == ValidateOapiSpec(None, openapi, operations)
  {
  }
}
