/** The binding state of Flask-Waypoint: the closed set of binding names, the
    engine registry that `init_app` fills, the per-context binding cell that
    `db_bind` sets, and the resolver `get_engine` that the ORM calls on every
    query. */
module Waypoint {

  datatype Option<T> = None | Some(value: T)

  /** The two supported bindings. */
  datatype Binding = Master | Slave

  /** The binding names accepted by `db_bind`, in the order the source lists them. */
  const BindingNames: seq<string> := ["master", "slave"]

  /** The configuration keys `init_app` reads when the caller names none. */
  const DefaultMasterKey: string := "DB_MASTER_URI"
  const DefaultSlaveKey: string := "DB_SLAVE_URI"

  /** The diagnostic logged when a query runs without a binding. */
  const FallbackWarning: string :=
    "Using database without binding to master or slave, fallbacking to master"

  /** The exceptions the core raises. */
  datatype Error =
    | UnknownBinding            // `Exception('Unknown database binding')`
    | TwoBindingsOnSameRequest  // `TwoBindingsOnSameRequestError`
    | NoBindingActive           // `NoBindingActiveError`
    | MissingConfig(key: string)  // `KeyError` on `app.config[key]` in `init_app`
    | EngineNotRegistered       // `KeyError` on `engines[app][bind]` in `get_engine`

  datatype Result<T> = Ok(value: T) | Err(error: Error)

  /** A Flask application, identified by value: the registry is keyed by it. */
  datatype App = App(id: nat)

  /** An opened engine, as `create_engine` returns it; only its identity matters. */
  datatype Engine = Engine(handle: nat)

  /** The contents of a context's `waypoint_current_bind` attribute:
      absent, or one of the two bindings. */
  type Cell = Option<Binding>

  /** The state of a context after an operation, with the operation's outcome. */
  datatype Run<T> = Run(cell: Cell, result: Result<T>)

  /** What the installed `get_engine` closure captures from `init_app`. */
  datatype Resolver = Resolver(strict: bool)

  /** The outcome of one `get_engine` call, with the warnings it logged. */
  datatype Lookup = Lookup(warnings: seq<string>, outcome: Result<Engine>)

  /** The engines registered per application. */
  type Engines = map<App, map<Binding, Engine>>

  /** The name under which a binding is stored and looked up. */
  function Name(b: Binding): (s: string)
    ensures s in BindingNames
  {
    match b
    case Master => "master"
    case Slave => "slave"
  }

  /** The membership test `bind in BINGINDS`, returning the binding named. */
  function ParseBinding(name: string): (r: Option<Binding>)
    ensures r.Some? <==> name in BindingNames
    ensures r.Some? ==> Name(r.value) == name
  {
    if name == "master" then Some(Master)
    else if name == "slave" then Some(Slave)
    else None
  }

  /** Storing a binding's name and checking it again gives back the same binding. */
  lemma NameRoundTrip(b: Binding)
    ensures ParseBinding(Name(b)) == Some(b)
  {
  }

  /** Entering a `db_bind(name)` scope from a context whose cell is `cell`:
      the name is checked before the cell is read, a bound cell is never
      overwritten, and an unbound cell becomes bound to exactly `name`. */
  function Enter(cell: Cell, name: string): (r: Run<Binding>)
    ensures name !in BindingNames ==> r == Run(cell, Err(UnknownBinding))
    ensures name in BindingNames && cell.Some? ==> r == Run(cell, Err(TwoBindingsOnSameRequest))
    ensures r.result.Ok? <==> name in BindingNames && cell.None?
    ensures r.result.Ok? ==> Name(r.result.value) == name && r.cell == Some(r.result.value)
    ensures r.result.Err? ==> r.cell == cell
  {
    match ParseBinding(name)
    case None => Run(cell, Err(UnknownBinding))
    case Some(b) =>
      if cell.Some? then Run(cell, Err(TwoBindingsOnSameRequest))
      else Run(Some(b), Ok(b))
  }

  /** The binding `get_engine` uses: the bound one, or `master` when the
      cell is empty or there is no context at all. */
  function Effective(ctx: Option<Cell>): Binding
  {
    match ctx
    case Some(Some(b)) => b
    case _ => Master
  }

  /** The lookup `engines[app][b]`, failing like Python's `KeyError`. */
  function EngineFor(engines: Engines, app: App, b: Binding): Result<Engine>
  {
    if app in engines && b in engines[app] then Ok(engines[app][b]) else Err(EngineNotRegistered)
  }

  /** `get_engine(app, bind)` as installed by `init_app` with the given
      resolver. `ctx` is `None` when no Flask context is on the stack
      (`stack.top` is None), otherwise the current context's cell. The
      `bind` argument is never consulted. */
  function Resolve(engines: Engines, resolver: Resolver, ctx: Option<Cell>, app: App, bind: Option<string>): (r: Lookup)
    // bound: the registered engine of the bound name, silently
    ensures ctx.Some? && ctx.value.Some? ==>
      r.warnings == [] &&
      (r.outcome.Ok? <==> app in engines && ctx.value.value in engines[app]) &&
      (r.outcome.Ok? ==> r.outcome.value == engines[app][ctx.value.value]) &&
      (r.outcome.Err? ==> r.outcome.error == EngineNotRegistered)
    // strict mode inside a context: raise, returning no engine and logging nothing
    ensures resolver.strict && ctx == Some(None) ==> r == Lookup([], Err(NoBindingActive))
    // otherwise unbound: exactly one warning, then the master engine
    ensures (ctx == None || (ctx == Some(None) && !resolver.strict)) ==>
      r.warnings == [FallbackWarning] &&
      (r.outcome.Ok? <==> app in engines && Master in engines[app]) &&
      (r.outcome.Ok? ==> r.outcome.value == engines[app][Master]) &&
      (r.outcome.Err? ==> r.outcome.error == EngineNotRegistered)
    // every engine returned is one the registry holds for that application
    ensures r.outcome.Ok? ==> app in engines && r.outcome.value in engines[app].Values
    ensures |r.warnings| <= 1
  {
    var current := if ctx.Some? then ctx.value else None;
    if current.None? && resolver.strict && ctx.Some? then
      Lookup([], Err(NoBindingActive))
    else
      var warnings := if current.None? then [FallbackWarning] else [];
      Lookup(warnings, EngineFor(engines, app, Effective(ctx)))
  }

  /** The registry entry `init_app` leaves for an application: empty when
      the master key is missing from the configuration, only `master` when
      the slave key is missing, both otherwise. `connect` stands for
      `create_engine`. */
  function Configured(config: map<string, string>, masterKey: string, slaveKey: string,
                      connect: string -> Engine): (entry: map<Binding, Engine>)
    ensures Master in entry <==> masterKey in config
    ensures Slave in entry <==> masterKey in config && slaveKey in config
    ensures Master in entry ==> entry[Master] == connect(config[masterKey])
    ensures Slave in entry ==> entry[Slave] == connect(config[slaveKey])
  {
    if masterKey !in config then map[]
    else if slaveKey !in config then map[Master := connect(config[masterKey])]
    else map[Master := connect(config[masterKey]), Slave := connect(config[slaveKey])]
  }

  /** The error `init_app` raises for a configuration, if any: the first of
      the two keys it reads that is missing. */
  function ConfigError(config: map<string, string>, masterKey: string, slaveKey: string): (r: Option<Error>)
    ensures r == None <==> masterKey in config && slaveKey in config
    ensures masterKey !in config ==> r == Some(MissingConfig(masterKey))
    ensures masterKey in config && slaveKey !in config ==> r == Some(MissingConfig(slaveKey))
  {
    if masterKey !in config then Some(MissingConfig(masterKey))
    else if slaveKey !in config then Some(MissingConfig(slaveKey))
    else None
  }

  /** The module-level `engines` dictionary. */
  class Registry {
    var engines: Engines

    constructor ()
      ensures engines == map[]
    {
      engines := map[];
    }

    /** `FlaskWaypoint.init_app`: replaces the application's entry, opening
        the master and then the slave engine, and on success hands back the
        resolver to install as `db.get_engine`. A missing key leaves the
        entry as far as it got. */
    method InitApp(app: App, config: map<string, string>, strict: bool,
                   masterKey: string, slaveKey: string, connect: string -> Engine)
      returns (r: Result<Resolver>)
      modifies this
      ensures engines == old(engines)[app := Configured(config, masterKey, slaveKey, connect)]
      ensures r.Ok? <==> ConfigError(config, masterKey, slaveKey) == None
      ensures r.Ok? ==> r.value == Resolver(strict)
      ensures r.Err? ==> Some(r.error) == ConfigError(config, masterKey, slaveKey)
    {
      engines := engines[app := map[]];
      if masterKey !in config {
        return Err(MissingConfig(masterKey));
      }
      engines := engines[app := engines[app][Master := connect(config[masterKey])]];
      if slaveKey !in config {
        return Err(MissingConfig(slaveKey));
      }
      engines := engines[app := engines[app][Slave := connect(config[slaveKey])]];
      r := Ok(Resolver(strict));
    }
  }

  /** A Flask context object carrying the `waypoint_current_bind` attribute. */
  class Context {
    var bind: Cell

    /** A context starts with the attribute unset. */
    constructor ()
      ensures bind == None
    {
      bind := None;
    }

    /** The entry half of `db_bind(name)`; leaving the scope does nothing. */
    method DbBind(name: string) returns (r: Result<Binding>)
      modifies this
      ensures Run(bind, r) == Enter(old(bind), name)
      ensures name !in BindingNames ==> r == Err(UnknownBinding) && bind == old(bind)
      ensures name in BindingNames && old(bind).Some? ==> r == Err(TwoBindingsOnSameRequest) && bind == old(bind)
      ensures r.Ok? ==> bind == Some(r.value) && Name(r.value) == name
    {
      var b := ParseBinding(name);
      if b.None? {
        return Err(UnknownBinding);
      }
      if bind.Some? {
        return Err(TwoBindingsOnSameRequest);
      }
      bind := b;
      r := Ok(b.value);
    }
  }
}
