/** The scope combinators: `db_bind` used as a `with` block, its two
    fixed-name forms `db_master` and `db_slave`, and the decorators
    `with_master` and `with_slave`. A block is a function from the cell it
    starts with to the cell it leaves and the value it returns or the
    exception it raises. */
module Scopes {
  import opened Waypoint

  /** `with db_bind(name): body`. Leaving the scope runs no code, so whatever
      the block leaves in the cell stays there. */
  function Scope<T>(name: string, body: Cell -> Run<T>, cell: Cell): (r: Run<T>)
    ensures name !in BindingNames ==> r == Run(cell, Err(UnknownBinding))
    ensures name in BindingNames && cell.Some? ==> r == Run(cell, Err(TwoBindingsOnSameRequest))
    ensures name in BindingNames && cell.None? ==> r == body(ParseBinding(name))
  {
    var entered := Enter(cell, name);
    match entered.result
    case Err(e) => Run(entered.cell, Err(e))
    case Ok(_) => body(entered.cell)
  }

  /** `with db_master(): body`. */
  function DbMaster<T>(body: Cell -> Run<T>, cell: Cell): (r: Run<T>)
    ensures cell.None? ==> r == body(Some(Master))
    ensures cell.Some? ==> r == Run(cell, Err(TwoBindingsOnSameRequest))
  {
    Scope("master", body, cell)
  }

  /** `with db_slave(): body`. */
  function DbSlave<T>(body: Cell -> Run<T>, cell: Cell): (r: Run<T>)
    ensures cell.None? ==> r == body(Some(Slave))
    ensures cell.Some? ==> r == Run(cell, Err(TwoBindingsOnSameRequest))
  {
    Scope("slave", body, cell)
  }

  /** A call of `with_master(fn)` on `args`: `fn(args)` runs bound to
      master and its return value passes through unchanged. */
  function WithMaster<A, T>(fn: A -> (Cell -> Run<T>), args: A, cell: Cell): (r: Run<T>)
    ensures cell.None? ==> r == fn(args)(Some(Master))
    ensures cell.Some? ==> r == Run(cell, Err(TwoBindingsOnSameRequest))
  {
    DbMaster(fn(args), cell)
  }

  /** A call of `with_slave(fn)` on `args`: `fn(args)` runs bound to slave
      and its return value passes through unchanged. */
  function WithSlave<A, T>(fn: A -> (Cell -> Run<T>), args: A, cell: Cell): (r: Run<T>)
    ensures cell.None? ==> r == fn(args)(Some(Slave))
    ensures cell.Some? ==> r == Run(cell, Err(TwoBindingsOnSameRequest))
  {
    DbSlave(fn(args), cell)
  }

  /** A block that never clears or changes a binding once one is set. */
  ghost predicate KeepsBinding<T>(body: Cell -> Run<T>)
  {
    forall c: Cell {:trigger body(c)} :: c.Some? ==> body(c).cell == c
  }

  /** Once a scope has been entered, its context stays bound after the scope
      ends, to the name it was entered with, provided the block itself does
      not reset the attribute; so every later scope on that context raises. */
  lemma ExitLeavesBound<T, U>(name: string, body: Cell -> Run<T>, later: string, next: Cell -> Run<U>)
    requires KeepsBinding(body)
    requires name in BindingNames && later in BindingNames
    ensures Scope(name, body, None).cell == ParseBinding(name)
    ensures Scope(later, next, Scope(name, body, None).cell) ==
      Run(ParseBinding(name), Err(TwoBindingsOnSameRequest))
  {
  }

  /** A scope never changes a bound cell, whatever its block does, since on
      a bound cell the block does not run; so nested and sequential uses of
      the combinators never clear the cell. */
  lemma ScopeKeepsBinding<T>(name: string, body: Cell -> Run<T>)
    ensures KeepsBinding((c: Cell) => Scope(name, body, c))
  {
  }
}
