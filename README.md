# Flask-Waypoint binding model

Flask-Waypoint sends each Flask request's database work to a `master` or a
`slave` SQLAlchemy engine. Handler code declares the binding with
`db_bind(name)` or one of its fixed-name forms. The binding is stored as the
attribute `waypoint_current_bind` on the current Flask context. The
`get_engine` function that `init_app` installs on the Flask-SQLAlchemy object
reads that attribute on every query and picks the engine from the
module-level `engines` registry.

This project models that core in Dafny:

- `waypoint.dfy`, module `Waypoint`:
  - the closed set of binding names and the exceptions;
  - the registry, as class `Registry` with `InitApp`;
  - the per-context cell, as class `Context` with `DbBind`;
  - the entry decision of `db_bind` (`Enter`) and the resolver (`Resolve`),
    as pure functions.
- `scopes.dfy`, module `Scopes`: `with db_bind(...)` blocks and the
  `db_master`, `db_slave`, `with_master` and `with_slave` wrappers. Each is a
  function of the cell the block starts with.
- `requests.dfy`, module `Requests`: what one request can do with its context
  over its lifetime, and the routes of the project's test application.

Some code paths are modelled directly from the source:

- Leaving a `db_bind` scope runs no code, so a context is bound at most once
  in its lifetime. A second entry raises `TwoBindingsOnSameRequestError`,
  whether it is nested in the first scope or comes after it ended.
- `init_app` first empties the application's entry, then opens master, then
  slave. A missing configuration key therefore leaves a partial entry
  (`Configured`).
- When there is no binding and the resolver is not strict, `get_engine` logs
  its warning before indexing `engines`. An application that was never
  initialised therefore logs the warning and then fails with a `KeyError`
  (`EngineNotRegistered`).
- The `bind` argument of `get_engine` is never read. The `app` argument is the
  caller's, not the one `init_app` was called with. The only state the
  installed closure captures is the strict flag (`Resolver`).

Two further facts about the code shape the model:

- An unregistered (application, binding) pair raises Python's `KeyError`,
  modelled as `EngineNotRegistered`.
- Names are checked against the constant list `['master', 'slave']`.

External parts appear as parameters:

- `create_engine` is the parameter `connect: string -> Engine`.
- `app.config` is a `map<string, string>`.
- The presence of a Flask context (`stack.top`) is the explicit argument
  `ctx: Option<Cell>` of `Resolve`, where `None` means no context is on the stack (`stack.top` is None). An application context counts as a context, even outside a request.
- The warning sink is the `warnings` sequence of the `Lookup` that `Resolve`
  returns.

## Model

| member | source | states |
|---|---|---|
| `Waypoint.Name` | flask_waypoint/__init__.py:19 | every binding's stored name is one of the two accepted names |
| `Waypoint.ParseBinding` | flask_waypoint/__init__.py:75-76 | a name is accepted exactly when it is `master` or `slave`, and the accepted binding's name is the input |
| `Waypoint.NameRoundTrip` | flask_waypoint/__init__.py:19 | checking the stored name of a binding gives back that binding |
| `Waypoint.Enter` | flask_waypoint/__init__.py:73-81 | an unknown name is rejected whatever the cell holds and leaves it unchanged; a known name on a bound cell raises the two-bindings error and leaves the binding; entry succeeds exactly for a known name on an unbound cell, and binds it to exactly that name |
| `Waypoint.Context.constructor` | flask_waypoint/__init__.py:77-78 | a context starts with no binding |
| `Waypoint.Context.DbBind` | flask_waypoint/__init__.py:73-82 | the context's new binding and the outcome are those of `Enter` on its old binding; errors leave the binding unchanged, success sets it to the given name |
| `Waypoint.Resolve` | flask_waypoint/__init__.py:35-43 | when bound, the registered engine of the bound name is returned with no warning; strict mode inside a context with no binding raises `NoBindingActiveError`, logging nothing; the other unbound cases log exactly one warning and return the master engine; an unregistered application or binding fails with `EngineNotRegistered`; any engine returned is one registered for that application |
| `Waypoint.Configured` | flask_waypoint/__init__.py:31-33 | the entry holds master exactly when the master key is configured, and slave exactly when both keys are; each holds the engine opened from its configured URI |
| `Waypoint.ConfigError` | flask_waypoint/__init__.py:29-33 | initialisation fails exactly when a key is missing, naming the master key first |
| `Waypoint.Registry.constructor` | flask_waypoint/__init__.py:18 | the registry starts empty |
| `Waypoint.Registry.InitApp` | flask_waypoint/__init__.py:29-45 | only the given application's entry changes, becoming `Configured`; success, returning a resolver with the given strict flag, exactly when both keys are configured, otherwise the missing-key error |
| `Scopes.Scope` | flask_waypoint/__init__.py:72-82 | an unknown name raises with the cell unchanged; a bound cell raises the two-bindings error with its binding kept; otherwise the block runs with the cell bound to the name and its cell and result are the scope's, since exit does nothing |
| `Scopes.DbMaster` | flask_waypoint/__init__.py:58-62 | from an unbound cell the block runs bound to master; from a bound cell, the two-bindings error |
| `Scopes.DbSlave` | flask_waypoint/__init__.py:65-69 | from an unbound cell the block runs bound to slave; from a bound cell, the two-bindings error |
| `Scopes.WithMaster` | flask_waypoint/__init__.py:85-91 | the decorated function runs bound to master and its return value passes through unchanged; on a bound context it raises the two-bindings error |
| `Scopes.WithSlave` | flask_waypoint/__init__.py:94-100 | the decorated function runs bound to slave and its return value passes through unchanged; on a bound context it raises the two-bindings error |
| `Scopes.ExitLeavesBound` | flask_waypoint/__init__.py:78-82 | after a scope ends the context is still bound to its name, so a later scope with any known name raises the two-bindings error |
| `Scopes.ScopeKeepsBinding` | flask_waypoint/__init__.py:72-82 | a scope on an already bound cell never changes it, whatever its block does, because the block does not run |
| `Requests.BindAll` | flask_waypoint/__init__.py:78-82 | successive entries on one context yield one outcome per entry |
| `Requests.BoundAtMostOnce` | flask_waypoint/__init__.py:78-82 | of any sequence of entries on one context at most one succeeds; every entry after it raises; the context ends bound to that entry's name; an already bound context never changes and rejects every entry; the context ends unbound exactly when it started unbound and no entry succeeded |
| `Requests.FirstKnownSucceeds` | flask_waypoint/__init__.py:75-81 | on a fresh context the first entry with a known name succeeds and binds that name; every entry before it fails the name check |
| `Requests.RouteOutcomes` | tests/__init__.py:89-133 | the master routes read the master engine and the slave routes the slave engine; the nested and consecutive routes both raise the two-bindings error, leaving the context bound to master |
| `Requests.UnboundRouteOutcome` | tests/__init__.py:136-145 | a query with no binding in a request reads master with one warning, or raises `NoBindingActiveError` when strict; with no Flask context on the stack (`stack.top` is None) it reads master with one warning |
| `Requests.NoContextFallsBack` | flask_waypoint/__init__.py:38-42 | with no Flask context on the stack (`stack.top` is None) the resolver never raises for want of a binding: it returns the master lookup and logs one warning, strict or not |
| `Requests.BindArgumentIgnored` | flask_waypoint/__init__.py:35-43 | the `bind` argument never changes the resolver's answer |
| `Requests.RegisteredEngineResolves` | flask_waypoint/__init__.py:31-43 | after a successful initialisation, a context bound to a binding resolves, with no warning, to the engine opened from that binding's configured URI |
| `Requests.MasterThenSlaveRequest` | tests/__init__.py:70-87 | with the default configuration keys, initialisation succeeds; binding a fresh context to master succeeds; a query reads the master URI's engine; a second entry raises the two-bindings error and the context stays bound to master |

## Left out

- `create_engine` and SQLAlchemy: foreign code. Engines are opaque handles produced by the `connect` parameter, which never fails, so a malformed URI is not modelled. `connect` is a function, so equal URIs give equal handles, whereas `create_engine` opens a distinct engine on each call. No contract depends on engines being distinct.
- The assignment `db.get_engine = get_engine`: it patches a foreign object. `InitApp` returns the `Resolver` that would be installed.
- Flask's `_app_ctx_stack`/`_request_ctx_stack` lookup and the import fallback between them: the current context is an explicit argument.
- `db_bind` outside any Flask context, where Python fails in `setattr(None, ...)`: `DbBind` is a method of a context object, so a context always exists.
- `app.logger.warn`: modelled only as the warnings that `Resolve` returns. Scope blocks carry no warnings, because the tests check only engines and errors.
- Scopes.Scope: the block is any function of the cell, so a block that writes the attribute directly is allowed. `ExitLeavesBound` assumes a block that does not.
- The exception messages and the Python exception class hierarchy: only which error is raised is modelled.
- Concurrency and per-request isolation: each context is its own object, so isolation holds by construction.
- The generator and `contextmanager` machinery, exception unwinding and `functools.wraps` metadata: scope exit runs no code in the source, and the model runs none either.
- The SQLite databases and row counts of the tests: the model checks only which engine or which error each route gets.
- `FlaskWaypoint.__init__`: it only calls `init_app`.
- `setup.py`: packaging, not part of this model.
