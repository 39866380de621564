/** One request's life: the successive `db_bind` entries made on its context
    and the queries made inside them, and the request handlers of the
    project's test application. */
module Requests {
  import opened Waypoint
  import opened Scopes

  /** The cell left by a sequence of `db_bind` entries on one context and the
      outcome of each entry. Since leaving a scope does nothing, nested and
      sequential scopes produce the same sequence of entries. */
  datatype Trace = Trace(cell: Cell, results: seq<Result<Binding>>)

  function BindAll(cell: Cell, names: seq<string>): (t: Trace)
    ensures |t.results| == |names|
    decreases |names|
  {
    if names == [] then Trace(cell, [])
    else
      var first := Enter(cell, names[0]);
      var rest := BindAll(first.cell, names[1..]);
      Trace(rest.cell, [first.result] + rest.results)
  }

  /** The error a later entry raises on a context that is already bound:
      the name check comes first. */
  function Rejection(name: string): Error
  {
    if name in BindingNames then TwoBindingsOnSameRequest else UnknownBinding
  }

  /** A context is bound at most once in its lifetime: of any sequence of
      entries at most one succeeds, every entry after it raises, the context
      ends bound to the name of that entry, and a context that was already
      bound is never changed. */
  lemma {:induction false} BoundAtMostOnce(cell: Cell, names: seq<string>)
    ensures cell.Some? ==> BindAll(cell, names).cell == cell
    ensures cell.Some? ==> forall j :: 0 <= j < |names| ==>
      BindAll(cell, names).results[j] == Err(Rejection(names[j]))
    ensures forall i, j :: 0 <= i < j < |names| && BindAll(cell, names).results[i].Ok? ==>
      BindAll(cell, names).results[j] == Err(Rejection(names[j]))
    ensures forall i :: 0 <= i < |names| && BindAll(cell, names).results[i].Ok? ==>
      BindAll(cell, names).cell == Some(BindAll(cell, names).results[i].value) &&
      Name(BindAll(cell, names).results[i].value) == names[i]
    ensures BindAll(cell, names).cell.None? <==>
      cell.None? && forall i :: 0 <= i < |names| ==> BindAll(cell, names).results[i].Err?
    decreases |names|
  {
    if names != [] {
      var first := Enter(cell, names[0]);
      BoundAtMostOnce(first.cell, names[1..]);
      var t := BindAll(cell, names);
      var rest := BindAll(first.cell, names[1..]);
      assert t.results == [first.result] + rest.results;
      assert forall k :: 1 <= k < |names| ==> t.results[k] == rest.results[k - 1] && names[k] == names[1..][k - 1];
      if first.result.Ok? {
        assert first.cell.Some?;
      }
    }
  }

  /** The converse: on a fresh context the first entry with a known name
      succeeds, binding that name, and every entry before it fails on the
      name check. */
  lemma {:induction false} FirstKnownSucceeds(names: seq<string>, k: nat)
    requires k < |names| && names[k] in BindingNames
    requires forall i :: 0 <= i < k ==> names[i] !in BindingNames
    ensures BindAll(None, names).results[k].Ok?
    ensures Name(BindAll(None, names).results[k].value) == names[k]
    ensures forall i :: 0 <= i < k ==> BindAll(None, names).results[i] == Err(UnknownBinding)
    decreases k
  {
    if k > 0 {
      FirstKnownSucceeds(names[1..], k - 1);
      var rest := BindAll(None, names[1..]);
      assert BindAll(None, names).results == [Err(UnknownBinding)] + rest.results;
    }
  }

  /** The query `User.query.all()` a handler makes: the ORM resolves the
      engine for the cell the block runs with. */
  function Query(engines: Engines, resolver: Resolver, app: App): Cell -> Run<Engine>
  {
    (c: Cell) => Run(c, Resolve(engines, resolver, Some(c), app, None).outcome)
  }

  /** A block that does nothing (`pass`). */
  function Pass(): Cell -> Run<()>
  {
    (c: Cell) => Run(c, Ok(()))
  }

  /** The handlers of the test application, run in a fresh request against
      an application with a master and a slave engine registered: the
      `db_master`/`with_master` routes read the master engine, the
      `db_slave`/`with_slave` routes the slave engine, whether or not the
      resolver is strict, and both the nested and the consecutive routes
      raise `TwoBindingsOnSameRequestError` before any query runs. */
  lemma RouteOutcomes(engines: Engines, resolver: Resolver, app: App)
    requires app in engines && Master in engines[app] && Slave in engines[app]
    ensures DbMaster(Query(engines, resolver, app), None).result == Ok(engines[app][Master])
    ensures DbSlave(Query(engines, resolver, app), None).result == Ok(engines[app][Slave])
    ensures WithMaster((_: ()) => Query(engines, resolver, app), (), None).result == Ok(engines[app][Master])
    ensures WithSlave((_: ()) => Query(engines, resolver, app), (), None).result == Ok(engines[app][Slave])
    ensures DbMaster((c: Cell) => DbSlave(Query(engines, resolver, app), c), None) ==
      Run(Some(Master), Err(TwoBindingsOnSameRequest))
    ensures DbSlave(Query(engines, resolver, app), DbMaster(Pass(), None).cell) ==
      Run(Some(Master), Err(TwoBindingsOnSameRequest))
  {
  }

  /** The `no_binding` route: a query with no scope at all reads the master
      engine with the fallback warning, unless the resolver is strict, in
      which case it raises `NoBindingActiveError`. */
  lemma UnboundRouteOutcome(engines: Engines, resolver: Resolver, app: App)
    requires app in engines && Master in engines[app]
    ensures !resolver.strict ==>
      Resolve(engines, resolver, Some(None), app, None) == Lookup([FallbackWarning], Ok(engines[app][Master]))
    ensures resolver.strict ==>
      Resolve(engines, resolver, Some(None), app, None) == Lookup([], Err(NoBindingActive))
    ensures Resolve(engines, resolver, None, app, None) == Lookup([FallbackWarning], Ok(engines[app][Master]))
  {
  }

  /** With no Flask context on the stack (`stack.top` is None) a query never
      raises for want of a binding, whether or not the resolver is strict:
      it falls back to master. Code inside an application context but
      outside any request has a context, so this does not cover it. */
  lemma NoContextFallsBack(engines: Engines, resolver: Resolver, app: App, bind: Option<string>)
    ensures Resolve(engines, resolver, None, app, bind).outcome == EngineFor(engines, app, Master)
    ensures Resolve(engines, resolver, None, app, bind).warnings == [FallbackWarning]
  {
  }

  /** The argument `bind` that the ORM passes to `get_engine` never changes its answer. */
  lemma BindArgumentIgnored(engines: Engines, resolver: Resolver, ctx: Option<Cell>, app: App, b1: Option<string>, b2: Option<string>)
    ensures Resolve(engines, resolver, ctx, app, b1) == Resolve(engines, resolver, ctx, app, b2)
  {
  }

  /** After `init_app` succeeded for an application, a context bound to `b`
      resolves to the engine opened from the configured URI of `b`. */
  lemma RegisteredEngineResolves(config: map<string, string>, masterKey: string, slaveKey: string,
                                 connect: string -> Engine, engines: Engines, resolver: Resolver,
                                 app: App, b: Binding)
    requires ConfigError(config, masterKey, slaveKey) == None
    requires app in engines && engines[app] == Configured(config, masterKey, slaveKey, connect)
    ensures Resolve(engines, resolver, Some(Some(b)), app, None) ==
      Lookup([], Ok(connect(config[if b == Master then masterKey else slaveKey])))
  {
  }

  /** A whole request in the imperative form: the application is initialised
      with the default keys, a fresh context is bound to master, a query
      reads the master engine, and a second entry, nested or after the
      first scope ended, raises and leaves the context bound to master. */
  method MasterThenSlaveRequest(app: App, masterUri: string, slaveUri: string, strict: bool,
                                connect: string -> Engine)
    returns (init: Result<Resolver>, first: Result<Binding>, query: Lookup, second: Result<Binding>, after: Cell)
    ensures init == Ok(Resolver(strict))
    ensures first == Ok(Master)
    ensures query == Lookup([], Ok(connect(masterUri)))
    ensures second == Err(TwoBindingsOnSameRequest)
    ensures after == Some(Master)
  {
    var registry := new Registry();
    var config := map[DefaultMasterKey := masterUri, DefaultSlaveKey := slaveUri];
    init := registry.InitApp(app, config, strict, DefaultMasterKey, DefaultSlaveKey, connect);
    var ctx := new Context();
    first := ctx.DbBind("master");
    query := Resolve(registry.engines, init.value, Some(ctx.bind), app, None);
    second := ctx.DbBind("slave");
    after := ctx.bind;
  }
}
