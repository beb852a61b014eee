/**
 * `SimpleTestContext`: the active test case, the active reporter and a cache
 * of run-scoped singleton resources.
 */
module TestContext {
  import opened Values

  class SimpleTestContext {
    var test: Option<Obj>
    var reporter: Option<Obj>
    /** The resource cache, keyed by the resource's class name. */
    var resources: map<string, Obj>
    /** Identity the next `new $resource()` receives; all earlier ones are below it. */
    var nextId: nat

    /** Each cached resource is an instance of its key, built by this context. */
    ghost predicate Valid()
      reads this
    {
      forall k :: k in resources ==> resources[k].className == k && resources[k].id < nextId
    }

    constructor ()
      ensures Valid()
      ensures test == None && reporter == None && resources == map[]
    {
      test, reporter := None, None;
      resources := map[];
      nextId := 0;
    }

    /** `clear()`: empties the resource cache and nothing else. */
    method Clear()
      requires Valid()
      modifies this`resources
      ensures Valid()
      ensures resources == map[]
    {
      resources := map[];
    }

    /** `setTest($test)`: clears the cache, then replaces the test; the reporter stays. */
    method SetTest(t: Obj)
      requires Valid()
      modifies this`resources, this`test
      ensures Valid()
      ensures resources == map[]
      ensures GetTest() == Some(t)
    {
      Clear();
      test := Some(t);
    }

    function GetTest(): Option<Obj>
      reads this
    {
      test
    }

    /** `setReporter($reporter)`: clears the cache, then replaces the reporter; the test stays. */
    method SetReporter(r: Obj)
      requires Valid()
      modifies this`resources, this`reporter
      ensures Valid()
      ensures resources == map[]
      ensures GetReporter() == Some(r)
    {
      Clear();
      reporter := Some(r);
    }

    function GetReporter(): Option<Obj>
      reads this
    {
      reporter
    }

    /**
     * `get($resource)`: the cached instance when there is one; otherwise a new
     * instance of class `resource`, different from every instance this
     * context built before, is cached and returned.
     */
    method Get(resource: string) returns (r: Obj)
      requires Valid()
      modifies this`resources, this`nextId
      ensures Valid()
      ensures r.className == resource
      ensures resource in resources && resources[resource] == r
      ensures resource in old(resources) ==>
        r == old(resources)[resource] && resources == old(resources) && nextId == old(nextId)
      ensures resource !in old(resources) ==>
        r.id == old(nextId) && resources == old(resources)[resource := r] && nextId == old(nextId) + 1
    {
      if resource !in resources {
        resources := resources[resource := Obj(resource, nextId)];
        nextId := nextId + 1;
      }
      r := resources[resource];
    }
  }

  /** Two `get` calls with nothing in between return the identical instance. */
  method GetIsStable(ctx: SimpleTestContext, resource: string) returns (first: Obj, second: Obj)
    requires ctx.Valid()
    modifies ctx
    ensures ctx.Valid()
    ensures first == second
  {
    first := ctx.Get(resource);
    second := ctx.Get(resource);
  }

  /** A `get` after `setTest` builds a new instance instead of returning the one cached before. */
  method SetTestIsolatesCache(ctx: SimpleTestContext, resource: string, t: Obj) returns (before: Obj, after: Obj)
    requires ctx.Valid()
    modifies ctx
    ensures ctx.Valid()
    ensures before != after
    ensures ctx.GetTest() == Some(t)
  {
    before := ctx.Get(resource);
    ctx.SetTest(t);
    after := ctx.Get(resource);
  }

  /** The same isolation holds across `setReporter`. */
  method SetReporterIsolatesCache(ctx: SimpleTestContext, resource: string, rep: Obj) returns (before: Obj, after: Obj)
    requires ctx.Valid()
    modifies ctx
    ensures ctx.Valid()
    ensures before != after
    ensures ctx.GetReporter() == Some(rep)
  {
    before := ctx.Get(resource);
    ctx.SetReporter(rep);
    after := ctx.Get(resource);
  }
}
