/**
 * What well-bracketed use of the scoped store keeps.
 *
 * Inside one scope only the topmost cell of a row may appear or be rewritten, and
 * only at the depth of that scope (`Kept`). This is enough for the clean-up at the
 * end of a `fold` or a `next`, which drops at most one cell per row, to restore
 * the store exactly, and for the end of a `new` to find its own cell.
 */
module Scopes {
  import opened Wrappers
  import opened SparseMatrix

  function Cells<T>(m: Matrix<T>, name: string): seq<Cell<T>> {
    if name in m.cells then m.cells[name].Elements() else []
  }

  predicate Sorted<T>(cells: seq<Cell<T>>) {
    forall i, j | 0 <= i <= j < |cells| :: cells[i].depth <= cells[j].depth
  }

  /** A row is sorted and never deeper than the current scope. */
  predicate RowValid<T>(depth: nat, cells: seq<Cell<T>>) {
    Sorted(cells) && forall i | 0 <= i < |cells| :: cells[i].depth <= depth
  }

  /** The current scope is visible and deeper ones are not. */
  ghost predicate Valid<T>(m: Matrix<T>) {
    && m.depth in m.allowed
    && (forall d | d in m.allowed :: d <= m.depth)
    && forall n {:trigger RowValid(m.depth, Cells(m, n))} :: RowValid(m.depth, Cells(m, n))
  }

  /** The row without the cell of scope `depth` on its top. */
  function Below<T>(depth: nat, cells: seq<Cell<T>>): seq<Cell<T>> {
    if cells != [] && cells[|cells| - 1].depth == depth then cells[..|cells| - 1] else cells
  }

  ghost predicate RowKept<T>(depth: nat, before: seq<Cell<T>>, after: seq<Cell<T>>) {
    || after == before
    || (&& after != [] && after[|after| - 1].depth == depth && after[|after| - 1].value.Some?
        && after[..|after| - 1] == Below(depth, before))
  }

  ghost predicate Kept<T>(m: Matrix<T>, m': Matrix<T>) {
    && m'.depth == m.depth
    && m'.allowed == m.allowed
    && forall n {:trigger RowKept(m.depth, Cells(m, n), Cells(m', n))} :: RowKept(m.depth, Cells(m, n), Cells(m', n))
  }

  lemma SameCells<T>(m: Matrix<T>, m': Matrix<T>)
    requires m.depth == m'.depth && m.allowed == m'.allowed
    requires forall n :: Cells(m, n) == Cells(m', n)
    ensures m == m'
  {
    forall n
      ensures n in m.cells <==> n in m'.cells
      ensures n in m.cells && n in m'.cells ==> m.cells[n] == m'.cells[n]
    {
      assert Cells(m, n) == Cells(m', n);
      if n in m.cells && n in m'.cells {
        var r, r' := m.cells[n], m'.cells[n];
        assert r.init == r.Elements()[..|r.Elements()| - 1] == r'.Elements()[..|r'.Elements()| - 1] == r'.init;
      }
    }
    assert m.cells == m'.cells;
  }

  lemma KeptTransitive<T>(a: Matrix<T>, b: Matrix<T>, c: Matrix<T>)
    requires Kept(a, b) && Kept(b, c)
    ensures Kept(a, c)
  {
    forall n
      ensures RowKept(a.depth, Cells(a, n), Cells(c, n))
    {
      assert RowKept(a.depth, Cells(a, n), Cells(b, n)) && RowKept(a.depth, Cells(b, n), Cells(c, n));
    }
  }

  lemma KeptValid<T>(m: Matrix<T>, m': Matrix<T>)
    requires Valid(m) && Kept(m, m')
    ensures Valid(m')
  {
    forall n
      ensures RowValid(m'.depth, Cells(m', n))
    {
      assert RowKept(m.depth, Cells(m, n), Cells(m', n)) && RowValid(m.depth, Cells(m, n));
      RowKeptValid(m.depth, Cells(m, n), Cells(m', n));
    }
  }

  lemma RowKeptValid<T>(depth: nat, before: seq<Cell<T>>, after: seq<Cell<T>>)
    requires RowValid(depth, before) && RowKept(depth, before, after)
    ensures RowValid(depth, after)
  {
    if after != before {
      assert forall i | 0 <= i < |after| - 1 :: after[i] == Below(depth, before)[i];
    }
  }

  lemma CellsOfSet<T>(m: Matrix<T>, name: string, value: T, n: string)
    ensures Cells(Set(m, name, value), n) ==
      if n == name && SetAnswer(m, name).Ok? then Below(m.depth, Cells(m, name)) + [Cell(m.depth, Some(value))]
      else Cells(m, n)
  {
    var cell := Cell(m.depth, Some(value));
    if n == name && name in m.cells {
      var row := m.cells[name];
      assert row.Elements()[..|row.Elements()| - 1] == row.init;
      assert row.Push(cell).Elements() == row.Elements() + [cell];
    }
  }

  lemma SetKept<T>(m: Matrix<T>, name: string, value: T)
    ensures Kept(m, Set(m, name, value))
  {
    var m' := Set(m, name, value);
    forall n
      ensures RowKept(m.depth, Cells(m, n), Cells(m', n))
    {
      CellsOfSet(m, name, value, n);
      if n == name && SetAnswer(m, name).Ok? {
        assert Cells(m', n)[..|Cells(m', n)| - 1] == Below(m.depth, Cells(m, name));
      }
    }
  }

  /** The row without a cell deeper than `depth` on its top. */
  function UpTo<T>(depth: nat, cells: seq<Cell<T>>): seq<Cell<T>> {
    if cells != [] && cells[|cells| - 1].depth > depth then cells[..|cells| - 1] else cells
  }

  lemma CellsOfCleanup<T>(m: Matrix<T>, n: string)
    ensures Cells(Cleanup(m), n) == UpTo(m.depth, Cells(m, n))
  {
    if n in m.cells {
      var row := m.cells[n];
      if Obsolete(row, m.depth) {
        assert row.Elements()[..|row.Elements()| - 1] == row.init;
        if row.init != [] {
          assert row.Pop().value.Elements() == row.init;
        }
      }
    }
  }

  /** Whatever a body did to a row inside the scope it was given, dropping one cell restores the row. */
  lemma RowRestored<T>(depth: nat, before: seq<Cell<T>>, after: seq<Cell<T>>)
    requires RowValid(depth, before) && RowKept(depth + 1, before, after)
    ensures UpTo(depth, after) == before
  {
    assert Below(depth + 1, before) == before;
  }

  /** A fold leaves the store as it found it. */
  lemma FoldRestores<T>(m: Matrix<T>, inner: Matrix<T>)
    requires Valid(m) && Kept(FoldStart(m), inner)
    ensures FoldEnd(inner) == m
  {
    var left := inner.(depth := m.depth, allowed := inner.allowed - {inner.depth});
    forall n
      ensures Cells(FoldEnd(inner), n) == Cells(m, n)
    {
      CellsOfCleanup(left, n);
      ScopeRestored(m, FoldStart(m), inner, left, n);
    }
    assert FoldEnd(inner).allowed == m.allowed;
    SameCells(FoldEnd(inner), m);
  }

  /** So does a `next` that advances. */
  lemma NextRestores<T>(m: Matrix<T>, inner: Matrix<T>)
    requires Valid(m) && Kept(NextBefore(m), inner)
    ensures NextAfter(inner) == m
  {
    var left := inner.(depth := m.depth, allowed := inner.allowed - {inner.depth} + {m.depth});
    forall n
      ensures Cells(NextAfter(inner), n) == Cells(m, n)
    {
      CellsOfCleanup(left, n);
      ScopeRestored(m, NextBefore(m), inner, left, n);
    }
    assert NextAfter(inner).allowed == m.allowed;
    SameCells(NextAfter(inner), m);
  }

  lemma ScopeRestored<T>(m: Matrix<T>, start: Matrix<T>, inner: Matrix<T>, left: Matrix<T>, n: string)
    requires Valid(m) && Kept(start, inner)
    requires start.cells == m.cells && start.depth == m.depth + 1 && left.cells == inner.cells
    ensures UpTo(m.depth, Cells(left, n)) == Cells(m, n)
    ensures RowKept(inner.depth, Cells(m, n), Cells(inner, n))
  {
    assert RowValid(m.depth, Cells(m, n));
    assert Cells(start, n) == Cells(m, n) && Cells(left, n) == Cells(inner, n);
    assert RowKept(start.depth, Cells(start, n), Cells(inner, n));
    RowRestored(m.depth, Cells(m, n), Cells(inner, n));
  }

  lemma CellsOfNewStart<T>(m: Matrix<T>, name: string, n: string)
    ensures Cells(NewStart(m, name), n) == if n == name then Cells(m, n) + [Cell(m.depth, None)] else Cells(m, n)
  {
  }

  /** `new` finds its own cell again, and the row of its variable is exactly restored. */
  lemma NewRestores<T>(m: Matrix<T>, name: string, inner: Matrix<T>)
    requires Kept(NewStart(m, name), inner)
    ensures NewEnd(inner, name).1 == Ok(())
    ensures Kept(m, NewEnd(inner, name).0)
    ensures Cells(NewEnd(inner, name).0, name) == Cells(m, name)
  {
    var start, end := NewStart(m, name), NewEnd(inner, name).0;
    var mark: Cell<T> := Cell(m.depth, None);
    assert Cells(start, name) == Cells(m, name) + [mark];
    var r := Cells(inner, name);
    assert RowKept(m.depth, Cells(start, name), r);
    assert Below(m.depth, Cells(start, name)) == Cells(m, name);
    assert r != [] && r[..|r| - 1] == Cells(m, name) && r[|r| - 1].depth == m.depth;
    var row := inner.cells[name];
    assert row.init == Cells(m, name) && row.last == r[|r| - 1];
    if row.init != [] {
      assert row.Pop().value.Elements() == row.init;
    }
    forall n
      ensures RowKept(m.depth, Cells(m, n), Cells(end, n))
    {
      if n != name {
        assert RowKept(m.depth, Cells(start, n), Cells(inner, n));
        assert Cells(start, n) == Cells(m, n) && Cells(end, n) == Cells(inner, n);
      }
    }
  }

  lemma OpensValid<T>(m: Matrix<T>)
    requires Valid(m)
    ensures Valid(FoldStart(m)) && Valid(NextBefore(m))
  {
    forall n
      ensures RowValid(m.depth + 1, Cells(FoldStart(m), n)) && RowValid(m.depth + 1, Cells(NextBefore(m), n))
    {
      assert RowValid(m.depth, Cells(m, n));
      assert Cells(FoldStart(m), n) == Cells(m, n) == Cells(NextBefore(m), n);
    }
  }

  lemma NewStartValid<T>(m: Matrix<T>, name: string)
    requires Valid(m)
    ensures Valid(NewStart(m, name))
  {
    forall n
      ensures RowValid(m.depth, Cells(NewStart(m, name), n))
    {
      assert RowValid(m.depth, Cells(m, n));
      assert Cells(NewStart(m, name), n) == if n == name then Cells(m, n) + [Cell(m.depth, None)] else Cells(m, n);
    }
  }

  /** No two cells of a row belong to the same scope. */
  predicate Unique<T>(cells: seq<Cell<T>>) {
    forall i, j | 0 <= i < j < |cells| :: cells[i].depth < cells[j].depth
  }

  /**
   * Setting a variable never gives a row two cells of one depth. A `new` does, exactly
   * if the variable was set in the same scope before.
   */
  lemma DepthsAreUniqueOutsideNew<T>(m: Matrix<T>, name: string, value: T)
    requires Valid(m) && Unique(Cells(m, name))
    ensures Unique(Cells(Set(m, name, value), name))
    ensures Unique(Cells(NewStart(m, name), name)) <==>
      Cells(m, name) == [] || Cells(m, name)[|Cells(m, name)| - 1].depth < m.depth
  {
    var cells := Cells(m, name);
    assert RowValid(m.depth, cells);
    CellsOfSet(m, name, value, name);
    CellsOfNewStart(m, name, name);
    if cells != [] {
      var after := Cells(NewStart(m, name), name);
      assert after[|cells| - 1] == cells[|cells| - 1] && after[|cells|].depth == m.depth;
    }
  }
}
