/**
 * The scoped store of values: one row per variable, one cell per scope depth at
 * which the variable was set (or reset by `new`), the depths that are visible at
 * the moment and the depth of the current scope.
 *
 * The functions on `Matrix` say what every operation does to the store; the class
 * `ValuesSparseMatrix` is the store updated in place.
 */
module SparseMatrix {
  import opened Wrappers

  const GLOBAL_DEPTH: nat := 0

  /** `None` is the mark left by `new` until the variable is set again. */
  datatype Cell<+T> = Cell(depth: nat, value: Option<T>)

  type Row<T> = NonEmpty<Cell<T>>

  datatype Matrix<T> = Matrix(cells: map<string, Row<T>>, allowed: set<nat>, depth: nat)

  datatype SetError = ShadowingIsNotAllowed(name: string)

  datatype NewEndError = ScalarsStateCorrupted(name: string, depth: nat)

  function Empty<T>(): Matrix<T> {
    Matrix(map[], {GLOBAL_DEPTH}, GLOBAL_DEPTH)
  }

  predicate CouldBeSet<T>(m: Matrix<T>, name: string) {
    m.depth != GLOBAL_DEPTH || (name in m.cells && m.cells[name].last.value.None?)
  }

  /** The answer is whether a value of the same scope was overwritten. */
  function SetAnswer<T>(m: Matrix<T>, name: string): Result<bool, SetError> {
    if name !in m.cells then Ok(false)
    else if !CouldBeSet(m, name) then Err(ShadowingIsNotAllowed(name))
    else Ok(m.cells[name].last.depth == m.depth)
  }

  function Set<T>(m: Matrix<T>, name: string, value: T): Matrix<T> {
    var cell := Cell(m.depth, Some(value));
    match SetAnswer(m, name)
    case Err(_) => m
    case Ok(true) => m.(cells := m.cells[name := NonEmpty(m.cells[name].init, cell)])
    case Ok(false) =>
      m.(cells := m.cells[name := if name in m.cells then m.cells[name].Push(cell) else NonEmpty([], cell)])
  }

  datatype GetError = VariableNotFound(name: string)

  /** `Ok(None)` is a variable reset by `new` and not set since. */
  function Get<T>(m: Matrix<T>, name: string): Result<Option<T>, GetError> {
    if name in m.cells && m.cells[name].last.depth in m.allowed
    then Ok(m.cells[name].last.value)
    else Err(VariableNotFound(name))
  }

  function FoldStart<T>(m: Matrix<T>): Matrix<T> {
    m.(depth := m.depth + 1, allowed := m.allowed + {m.depth + 1})
  }

  function NextBefore<T>(m: Matrix<T>): Matrix<T> {
    m.(depth := m.depth + 1, allowed := m.allowed - {m.depth} + {m.depth + 1})
  }

  function NextAfter<T>(m: Matrix<T>): Matrix<T>
    requires m.depth > 0
  {
    Cleanup(m.(depth := m.depth - 1, allowed := m.allowed - {m.depth} + {m.depth - 1}))
  }

  function FoldEnd<T>(m: Matrix<T>): Matrix<T>
    requires m.depth > 0
  {
    Cleanup(m.(depth := m.depth - 1, allowed := m.allowed - {m.depth}))
  }

  predicate Obsolete<T>(row: Row<T>, depth: nat) {
    row.last.depth != GLOBAL_DEPTH && row.last.depth > depth
  }

  /** What is left of a row when the scopes above `depth` are gone: at most one cell is dropped. */
  function Trim<T>(row: Row<T>, depth: nat): Option<Row<T>> {
    if Obsolete(row, depth) then row.Pop() else Some(row)
  }

  function Cleanup<T>(m: Matrix<T>): Matrix<T> {
    m.(cells := map n | n in m.cells && Trim(m.cells[n], m.depth).Some? :: Trim(m.cells[n], m.depth).value)
  }

  function NewStart<T>(m: Matrix<T>, name: string): Matrix<T> {
    var cell := Cell(m.depth, None);
    m.(cells := m.cells[name := if name in m.cells then m.cells[name].Push(cell) else NonEmpty([], cell)])
  }

  /** A row whose last cell is not of the current depth is an error; a cell may be gone by then. */
  function NewEnd<T>(m: Matrix<T>, name: string): (Matrix<T>, Result<(), NewEndError>) {
    var corrupted := Err(ScalarsStateCorrupted(name, m.depth));
    if name !in m.cells then (m, corrupted)
    else
      var row := m.cells[name];
      match row.Pop()
      case Some(rest) => (m.(cells := m.cells[name := rest]), if row.last.depth == m.depth then Ok(()) else corrupted)
      case None => if row.last.depth == m.depth then (m.(cells := m.cells - {name}), Ok(())) else (m, corrupted)
  }

  /** The store as the interpreter keeps it: three fields updated in place. */
  class ValuesSparseMatrix<T> {
    var cells: map<string, Row<T>>
    var allowedDepths: set<nat>
    var currentDepth: nat

    ghost function View(): Matrix<T>
      reads this
    {
      Matrix(cells, allowedDepths, currentDepth)
    }

    constructor ()
      ensures View() == Empty()
    {
      cells := map[];
      allowedDepths := {GLOBAL_DEPTH};
      currentDepth := GLOBAL_DEPTH;
    }

    method SetValue(name: string, value: T) returns (r: Result<bool, SetError>)
      modifies this
      ensures View() == Set(old(View()), name, value)
      ensures r == SetAnswer(old(View()), name)
    {
      var couldBeSet := VariableCouldBeSet(name);
      if name !in cells {
        cells := cells[name := NonEmpty([], Cell(currentDepth, Some(value)))];
        return Ok(false);
      }
      if !couldBeSet {
        return Err(ShadowingIsNotAllowed(name));
      }
      var row := cells[name];
      if row.last.depth == currentDepth {
        cells := cells[name := row.(last := row.last.(value := Some(value)))];
        return Ok(true);
      }
      cells := cells[name := row.Push(Cell(currentDepth, Some(value)))];
      return Ok(false);
    }

    method GetValue(name: string) returns (r: Result<Option<T>, GetError>)
      ensures r == Get(View(), name)
    {
      if name in cells {
        var lastCell := cells[name].last;
        if lastCell.depth in allowedDepths {
          return Ok(lastCell.value);
        }
      }
      return Err(VariableNotFound(name));
    }

    method VariableCouldBeSet(name: string) returns (r: bool)
      ensures r == CouldBeSet(View(), name)
    {
      if currentDepth != GLOBAL_DEPTH {
        return true;
      }
      return name in cells && cells[name].last.value.None?;
    }

    method MeetFoldStart()
      modifies this
      ensures View() == FoldStart(old(View()))
    {
      currentDepth := currentDepth + 1;
      allowedDepths := allowedDepths + {currentDepth};
    }

    method MeetNextBefore()
      modifies this
      ensures View() == NextBefore(old(View()))
    {
      allowedDepths := allowedDepths - {currentDepth};
      currentDepth := currentDepth + 1;
      allowedDepths := allowedDepths + {currentDepth};
    }

    method MeetNextAfter()
      requires currentDepth > 0
      modifies this
      ensures View() == NextAfter(old(View()))
    {
      allowedDepths := allowedDepths - {currentDepth};
      currentDepth := currentDepth - 1;
      allowedDepths := allowedDepths + {currentDepth};
      CleanupObsoleteValues();
    }

    method MeetFoldEnd()
      requires currentDepth > 0
      modifies this
      ensures View() == FoldEnd(old(View()))
    {
      allowedDepths := allowedDepths - {currentDepth};
      currentDepth := currentDepth - 1;
      CleanupObsoleteValues();
    }

    method MeetNewStart(name: string)
      modifies this
      ensures View() == NewStart(old(View()), name)
    {
      var newCell := Cell(currentDepth, None);
      if name in cells {
        cells := cells[name := cells[name].Push(newCell)];
      } else {
        cells := cells[name := NonEmpty([], newCell)];
      }
    }

    method MeetNewEnd(name: string) returns (r: Result<(), NewEndError>)
      modifies this
      ensures (View(), r) == NewEnd(old(View()), name)
    {
      r := Err(ScalarsStateCorrupted(name, currentDepth));
      if name in cells {
        var row := cells[name];
        var popped := row.Pop();
        if popped.Some? {
          cells := cells[name := popped.value];
          if row.last.depth == currentDepth {
            r := Ok(());
          }
        } else if row.last.depth == currentDepth {
          cells := cells - {name};
          r := Ok(());
        }
      }
    }

    /** Pops one cell off every row whose last cell is deeper than the current scope. */
    method CleanupObsoleteValues()
      modifies this`cells
      ensures View() == Cleanup(old(View()))
    {
      ghost var before := cells;
      var depth := currentDepth;
      var valuesToDelete: set<string> := {};
      var todo := cells.Keys;
      while todo != {}
        invariant todo <= before.Keys && cells.Keys == before.Keys
        invariant valuesToDelete <= before.Keys - todo
        invariant forall n | n in todo :: cells[n] == before[n]
        invariant forall n | n in before.Keys - todo :: n in valuesToDelete <==> Trim(before[n], depth).None?
        invariant forall n | n in before.Keys - todo :: n !in valuesToDelete ==> Some(cells[n]) == Trim(before[n], depth)
        decreases todo
      {
        var name :| name in todo;
        todo := todo - {name};
        var row := cells[name];
        if row.last.depth != GLOBAL_DEPTH && row.last.depth > depth {
          var popped := row.Pop();
          if popped.Some? {
            cells := cells[name := popped.value];
          } else {
            valuesToDelete := valuesToDelete + {name};
          }
        }
      }
      ghost var trimmed, obsolete := cells, valuesToDelete;
      while valuesToDelete != {}
        invariant valuesToDelete <= obsolete
        invariant cells == trimmed - (obsolete - valuesToDelete)
        decreases valuesToDelete
      {
        var name :| name in valuesToDelete;
        valuesToDelete := valuesToDelete - {name};
        cells := cells - {name};
      }
      assert cells == trimmed - obsolete;
    }
  }
}
