/**
 * The reference model of scopes: a stack of frames, each visible or hidden, each
 * with a stack of definitions per variable (more than one only while a `new` of
 * that variable is open). Every well-bracketed run of `fold`, `next`, `new`, set
 * and get gives the same answers on the sparse matrix and on the frames.
 */
module Frames {
  import opened Wrappers
  import opened SparseMatrix
  import opened Scopes

  datatype Frame<T> = Frame(visible: bool, vars: map<string, seq<Option<T>>>)

  type Stack<T> = seq<Frame<T>>

  function Defs<T>(f: Frame<T>, name: string): seq<Option<T>> {
    if name in f.vars then f.vars[name] else []
  }

  function WithDefs<T>(f: Frame<T>, name: string, defs: seq<Option<T>>): Frame<T> {
    f.(vars := if defs == [] then f.vars - {name} else f.vars[name := defs])
  }

  /** Only the innermost frame that defines the variable decides. */
  function Lookup<T>(fs: Stack<T>, name: string): Result<Option<T>, GetError> {
    if fs == [] then Err(VariableNotFound(name))
    else
      var top := fs[|fs| - 1];
      if Defs(top, name) == [] then Lookup(fs[..|fs| - 1], name)
      else if top.visible then Ok(top.vars[name][|top.vars[name]| - 1])
      else Err(VariableNotFound(name))
  }

  /** In the global frame a variable can be defined once; elsewhere it is defined or overwritten in the top frame. */
  function Define<T>(fs: Stack<T>, name: string, value: T): (Stack<T>, Result<bool, SetError>)
    requires fs != []
  {
    var top := fs[|fs| - 1];
    var defs := Defs(top, name);
    if defs == [] then (fs[|fs| - 1 := WithDefs(top, name, [Some(value)])], Ok(false))
    else if |fs| == 1 && defs[|defs| - 1].Some? then (fs, Err(ShadowingIsNotAllowed(name)))
    else (fs[|fs| - 1 := WithDefs(top, name, defs[|defs| - 1 := Some(value)])], Ok(true))
  }

  function Mark<T>(fs: Stack<T>, visible: bool): Stack<T>
    requires fs != []
  {
    fs[|fs| - 1 := fs[|fs| - 1].(visible := visible)]
  }

  function Enter<T>(fs: Stack<T>): Stack<T> {
    fs + [Frame(true, map[])]
  }

  function Leave<T>(fs: Stack<T>): Stack<T>
    requires fs != []
  {
    fs[..|fs| - 1]
  }

  function Reset<T>(fs: Stack<T>, name: string): Stack<T>
    requires fs != []
  {
    var top := fs[|fs| - 1];
    fs[|fs| - 1 := WithDefs(top, name, Defs(top, name) + [None])]
  }

  function Unreset<T>(fs: Stack<T>, name: string): Stack<T>
    requires fs != []
  {
    var top := fs[|fs| - 1];
    var defs := Defs(top, name);
    if defs == [] then fs else fs[|fs| - 1 := WithDefs(top, name, defs[..|defs| - 1])]
  }

  // ---- runs ----

  /** A well-bracketed run; `Fold` and `Next` stand for the scopes the two instructions open. */
  datatype Block<T> =
    | Skip
    | Read(name: string)
    | Write(name: string, value: T)
    | Then(first: Block<T>, second: Block<T>)
    | Fold(body: Block<T>)
    | Next(body: Block<T>)
    | New(name: string, body: Block<T>)

  datatype Answer<T> =
    | Found(value: Result<Option<T>, GetError>)
    | Written(overwritten: Result<bool, SetError>)
    | Closed(result: Result<(), NewEndError>)

  function RunMatrix<T>(b: Block<T>, m: Matrix<T>): (r: (Matrix<T>, seq<Answer<T>>))
    ensures r.0.depth == m.depth
  {
    match b
    case Skip => (m, [])
    case Read(n) => (m, [Found(Get(m, n))])
    case Write(n, v) => (Set(m, n, v), [Written(SetAnswer(m, n))])
    case Then(b1, b2) =>
      var (m1, a1) := RunMatrix(b1, m);
      var (m2, a2) := RunMatrix(b2, m1);
      (m2, a1 + a2)
    case Fold(body) =>
      var (m1, a) := RunMatrix(body, FoldStart(m));
      (FoldEnd(m1), a)
    case Next(body) =>
      var (m1, a) := RunMatrix(body, NextBefore(m));
      (NextAfter(m1), a)
    case New(n, body) =>
      var (m1, a) := RunMatrix(body, NewStart(m, n));
      (NewEnd(m1, n).0, a + [Closed(NewEnd(m1, n).1)])
  }

  function RunFrames<T>(b: Block<T>, fs: Stack<T>): (r: (Stack<T>, seq<Answer<T>>))
    requires fs != []
    ensures |r.0| == |fs|
  {
    match b
    case Skip => (fs, [])
    case Read(n) => (fs, [Found(Lookup(fs, n))])
    case Write(n, v) => (Define(fs, n, v).0, [Written(Define(fs, n, v).1)])
    case Then(b1, b2) =>
      var (fs1, a1) := RunFrames(b1, fs);
      var (fs2, a2) := RunFrames(b2, fs1);
      (fs2, a1 + a2)
    case Fold(body) =>
      var (fs1, a) := RunFrames(body, Enter(fs));
      (Leave(fs1), a)
    case Next(body) =>
      var (fs1, a) := RunFrames(body, Enter(Mark(fs, false)));
      (Mark(Leave(fs1), true), a)
    case New(n, body) =>
      var (fs1, a) := RunFrames(body, Reset(fs, n));
      (Unreset(fs1, n), a + [Closed(Ok(()))])
  }

  // ---- the frames a matrix stands for ----

  /** The values of one row at one depth, oldest first. */
  function ValuesAt<T>(cells: seq<Cell<T>>, depth: nat): seq<Option<T>> {
    if cells == [] then []
    else
      var last := cells[|cells| - 1];
      ValuesAt(cells[..|cells| - 1], depth) + if last.depth == depth then [last.value] else []
  }

  /** Every frame shows the cells of its depth, and is visible iff its depth is allowed. */
  ghost predicate Shows<T>(fs: Stack<T>, m: Matrix<T>) {
    && |fs| == m.depth + 1
    && (forall d: nat | d < |fs| :: fs[d].visible <==> d in m.allowed)
    && forall d: nat, n {:trigger Defs(fs[d], n)} | d < |fs| :: Defs(fs[d], n) == ValuesAt(Cells(m, n), d)
  }

  lemma {:induction false} ValuesOfOther<T>(cells: seq<Cell<T>>, depth: nat)
    requires forall i | 0 <= i < |cells| :: cells[i].depth != depth
    ensures ValuesAt(cells, depth) == []
  {
    if cells != [] {
      ValuesOfOther(cells[..|cells| - 1], depth);
    }
  }

  lemma ValuesOfPush<T>(cells: seq<Cell<T>>, cell: Cell<T>, depth: nat)
    ensures ValuesAt(cells + [cell], depth) == ValuesAt(cells, depth) + if cell.depth == depth then [cell.value] else []
  {
    assert (cells + [cell])[..|cells|] == cells;
  }

  /** What a row shows at its top depth is decided by its last cell. */
  lemma ValuesAtTop<T>(cells: seq<Cell<T>>, top: nat)
    requires RowValid(top, cells)
    ensures var v := ValuesAt(cells, top);
      && (v != [] <==> cells != [] && cells[|cells| - 1].depth == top)
      && (v != [] ==> v[|v| - 1] == cells[|cells| - 1].value)
  {
    if cells != [] && cells[|cells| - 1].depth != top {
      ValuesOfOther(cells, top);
    }
  }

  lemma ValuesOfBelow<T>(cells: seq<Cell<T>>, top: nat, depth: nat)
    requires RowValid(top, cells)
    ensures var v := ValuesAt(cells, depth);
      ValuesAt(Below(top, cells), depth) == if depth == top && v != [] then v[..|v| - 1] else v
  {
    ValuesAtTop(cells, top);
    if cells != [] && cells[|cells| - 1].depth == top {
      var v, rest := ValuesAt(cells, depth), ValuesAt(cells[..|cells| - 1], depth);
      assert v == rest + if depth == top then [cells[|cells| - 1].value] else [];
    }
  }

  /** A body inside a deeper scope does not change what a row shows at the depths below. */
  lemma ValuesKept<T>(top: nat, before: seq<Cell<T>>, after: seq<Cell<T>>, depth: nat)
    requires RowValid(top, before) && RowKept(top + 1, before, after) && depth <= top
    ensures ValuesAt(after, depth) == ValuesAt(before, depth)
  {
    if after != before {
      assert after == before + [after[|after| - 1]];
      ValuesOfPush(before, after[|after| - 1], depth);
    }
  }

  // ---- the operations agree ----

  lemma LookupAgrees<T>(fs: Stack<T>, m: Matrix<T>, name: string)
    requires Valid(m) && Shows(fs, m)
    ensures Lookup(fs, name) == Get(m, name)
  {
    var cells := Cells(m, name);
    assert RowValid(m.depth, cells);
    assert fs[..|fs|] == fs;
    if cells == [] {
      LookupAbove(fs, m, name, |fs|, 0);
    } else {
      var top := cells[|cells| - 1];
      assert top == m.cells[name].last;
      LookupAbove(fs, m, name, |fs|, top.depth + 1);
      assert Defs(fs[top.depth], name) == ValuesAt(cells, top.depth);
      ValuesAtTop(cells, top.depth);
    }
  }

  /** Frames above the last cell of the row are passed over. */
  lemma {:induction false} LookupAbove<T>(fs: Stack<T>, m: Matrix<T>, name: string, from: nat, to: nat)
    requires Shows(fs, m) && to <= from <= |fs|
    requires forall i | 0 <= i < |Cells(m, name)| :: Cells(m, name)[i].depth < to
    ensures Lookup(fs[..from], name) == Lookup(fs[..to], name)
  {
    if from > to {
      ValuesOfOther(Cells(m, name), from - 1);
      assert Defs(fs[from - 1], name) == [];
      assert fs[..from][..from - 1] == fs[..from - 1];
      LookupAbove(fs, m, name, from - 1, to);
    }
  }

  /** Replacing the definitions of one variable in the top frame. */
  lemma TopChanges<T>(fs: Stack<T>, m: Matrix<T>, m': Matrix<T>, name: string, defs: seq<Option<T>>)
    requires Shows(fs, m) && m'.depth == m.depth && m'.allowed == m.allowed
    requires forall n | n != name :: Cells(m', n) == Cells(m, n)
    requires forall d: nat | d < m.depth :: ValuesAt(Cells(m', name), d) == ValuesAt(Cells(m, name), d)
    requires ValuesAt(Cells(m', name), m.depth) == defs
    ensures Shows(fs[m.depth := WithDefs(fs[m.depth], name, defs)], m')
  {
    var fs' := fs[m.depth := WithDefs(fs[m.depth], name, defs)];
    forall d: nat, n | d < |fs'|
      ensures Defs(fs'[d], n) == ValuesAt(Cells(m', n), d)
    {
      assert Defs(fs[d], n) == ValuesAt(Cells(m, n), d);
    }
  }

  lemma DefineAgrees<T>(fs: Stack<T>, m: Matrix<T>, name: string, value: T)
    requires Valid(m) && Shows(fs, m)
    ensures Define(fs, name, value).1 == SetAnswer(m, name)
    ensures Shows(Define(fs, name, value).0, Set(m, name, value))
  {
    var cells := Cells(m, name);
    assert RowValid(m.depth, cells) && Defs(fs[m.depth], name) == ValuesAt(cells, m.depth);
    ValuesAtTop(cells, m.depth);
    assert name in m.cells ==> cells[|cells| - 1] == m.cells[name].last;
    if SetAnswer(m, name).Ok? {
      ShowsAfterSet(fs, m, name, value);
    }
  }

  lemma ShowsAfterSet<T>(fs: Stack<T>, m: Matrix<T>, name: string, value: T)
    requires Valid(m) && Shows(fs, m) && SetAnswer(m, name).Ok?
    ensures var defs := ValuesAt(Cells(m, name), m.depth);
      Shows(fs[m.depth := WithDefs(fs[m.depth], name, if defs == [] then [Some(value)] else defs[|defs| - 1 := Some(value)])],
            Set(m, name, value))
  {
    var cells, cell, m' := Cells(m, name), Cell(m.depth, Some(value)), Set(m, name, value);
    forall n
      ensures Cells(m', n) == if n == name then Below(m.depth, cells) + [cell] else Cells(m, n)
    {
      CellsOfSet(m, name, value, n);
    }
    assert RowValid(m.depth, cells);
    DefsAfterSet(m.depth, cells, cell);
    TopChanges(fs, m, m', name, ValuesAt(Cells(m', name), m.depth));
  }

  lemma DefsAfterSet<T>(top: nat, cells: seq<Cell<T>>, cell: Cell<T>)
    requires RowValid(top, cells) && cell.depth == top
    ensures forall d: nat | d < top :: ValuesAt(Below(top, cells) + [cell], d) == ValuesAt(cells, d)
    ensures var defs := ValuesAt(cells, top);
      ValuesAt(Below(top, cells) + [cell], top) == if defs == [] then [cell.value] else defs[|defs| - 1 := cell.value]
  {
    DefsAfterPush(Below(top, cells), cell);
    forall d: nat | d < top
      ensures ValuesAt(Below(top, cells), d) == ValuesAt(cells, d)
    {
      ValuesOfBelow(cells, top, d);
    }
    ValuesOfBelow(cells, top, top);
    if ValuesAt(cells, top) == [] {
      assert Below(top, cells) == cells by { ValuesAtTop(cells, top); }
    }
  }

  lemma DefsAfterPush<T>(cells: seq<Cell<T>>, cell: Cell<T>)
    ensures forall d: nat | d < cell.depth :: ValuesAt(cells + [cell], d) == ValuesAt(cells, d)
    ensures ValuesAt(cells + [cell], cell.depth) == ValuesAt(cells, cell.depth) + [cell.value]
  {
    forall d: nat | d < cell.depth
      ensures ValuesAt(cells + [cell], d) == ValuesAt(cells, d)
    {
      ValuesOfPush(cells, cell, d);
    }
    ValuesOfPush(cells, cell, cell.depth);
  }

  lemma ResetAgrees<T>(fs: Stack<T>, m: Matrix<T>, name: string)
    requires Shows(fs, m)
    ensures Shows(Reset(fs, name), NewStart(m, name))
  {
    var m', mark: Cell<T>, cells := NewStart(m, name), Cell(m.depth, None), Cells(m, name);
    forall n
      ensures Cells(m', n) == if n == name then cells + [mark] else Cells(m, n)
    {
      CellsOfNewStart(m, name, n);
    }
    DefsAfterPush(cells, mark);
    TopChanges(fs, m, m', name, ValuesAt(cells, m.depth) + [None]);
    assert Defs(fs[m.depth], name) == ValuesAt(cells, m.depth);
  }

  lemma UnresetAgrees<T>(fs: Stack<T>, m: Matrix<T>, name: string, inner: Matrix<T>)
    requires Valid(m) && Kept(NewStart(m, name), inner) && Shows(fs, inner)
    ensures Shows(Unreset(fs, name), NewEnd(inner, name).0)
  {
    var m', cells := NewEnd(inner, name).0, Cells(inner, name);
    EndFindsMark(m, name, inner);
    var defs := ValuesAt(cells, inner.depth);
    assert Defs(fs[inner.depth], name) == defs;
    ValuesAtTop(cells, inner.depth);
    forall d: nat | d <= inner.depth
      ensures ValuesAt(Cells(m', name), d) == if d == inner.depth then defs[..|defs| - 1] else ValuesAt(cells, d)
    {
      ValuesOfBelow(cells, inner.depth, d);
    }
    TopChanges(fs, inner, m', name, defs[..|defs| - 1]);
  }

  lemma EndFindsMark<T>(m: Matrix<T>, name: string, inner: Matrix<T>)
    requires Valid(m) && Kept(NewStart(m, name), inner)
    ensures var m', cells := NewEnd(inner, name).0, Cells(inner, name);
      && inner.depth == m'.depth && inner.allowed == m'.allowed
      && RowValid(inner.depth, cells) && cells != [] && cells[|cells| - 1].depth == inner.depth
      && Cells(m', name) == Below(inner.depth, cells)
      && forall n | n != name :: Cells(m', n) == Cells(inner, n)
  {
    NewRestores(m, name, inner);
    NewStartValid(m, name);
    KeptValid(NewStart(m, name), inner);
    var started := Cells(NewStart(m, name), name);
    assert RowValid(inner.depth, Cells(inner, name));
    assert started == Cells(m, name) + [Cell(m.depth, None)];
    assert Below(m.depth, started) == Cells(m, name);
    assert RowKept(m.depth, started, Cells(inner, name));
  }

  /** Opening a scope pushes an empty visible frame; the frame below keeps its mark or is hidden. */
  lemma EnterAgrees<T>(fs: Stack<T>, m: Matrix<T>, deeper: Matrix<T>)
    requires Valid(m) && Shows(fs, m)
    requires deeper.cells == m.cells && deeper.depth == m.depth + 1 && deeper.depth in deeper.allowed
    requires forall d | d < m.depth :: d in deeper.allowed <==> d in m.allowed
    ensures Shows(Enter(Mark(fs, m.depth in deeper.allowed)), deeper)
  {
    var fs' := Enter(Mark(fs, m.depth in deeper.allowed));
    forall d: nat, n | d < |fs'|
      ensures Defs(fs'[d], n) == ValuesAt(Cells(deeper, n), d)
    {
      assert Cells(deeper, n) == Cells(m, n) && RowValid(m.depth, Cells(m, n));
      if d == m.depth + 1 {
        ValuesOfOther(Cells(m, n), d);
      } else {
        assert Defs(fs[d], n) == ValuesAt(Cells(m, n), d);
      }
    }
  }

  /** Leaving it drops a frame; the frame below is visible again. */
  lemma LeaveAgrees<T>(fs: Stack<T>, m: Matrix<T>, start: Matrix<T>, inner: Matrix<T>)
    requires Valid(m) && start.cells == m.cells && start.depth == m.depth + 1 && Kept(start, inner)
    requires forall d | d < m.depth :: d in inner.allowed <==> d in m.allowed
    requires Shows(fs, inner)
    ensures Shows(Mark(Leave(fs), true), m)
  {
    var fs' := Mark(Leave(fs), true);
    forall d: nat, n | d < |fs'|
      ensures Defs(fs'[d], n) == ValuesAt(Cells(m, n), d)
    {
      assert Defs(fs[d], n) == ValuesAt(Cells(inner, n), d);
      ScopeRestored(m, start, inner, inner, n);
      assert RowValid(m.depth, Cells(m, n));
      ValuesKept(m.depth, Cells(m, n), Cells(inner, n), d);
    }
  }

  // ---- whole runs ----

  lemma FoldAgrees<T>(fs: Stack<T>, m: Matrix<T>, inner: Matrix<T>, fs': Stack<T>)
    requires Valid(m) && Kept(FoldStart(m), inner) && Shows(fs', inner)
    ensures FoldEnd(inner) == m && Shows(Leave(fs'), m)
  {
    FoldRestores(m, inner);
    LeaveAgrees(fs', m, FoldStart(m), inner);
    assert Mark(Leave(fs'), true) == Leave(fs');
  }

  /**
   * The matrix refines the frames: every get, set and end of `new` gets the same
   * answer (so the end of a `new` never finds the store corrupted) and the frames
   * reached show the matrix reached.
   */
  lemma {:induction false} RunsAgree<T>(b: Block<T>, fs: Stack<T>, m: Matrix<T>)
    requires Valid(m) && Shows(fs, m)
    ensures Kept(m, RunMatrix(b, m).0) && Valid(RunMatrix(b, m).0)
    ensures Shows(RunFrames(b, fs).0, RunMatrix(b, m).0)
    ensures RunFrames(b, fs).1 == RunMatrix(b, m).1
  {
    match b
    case Skip =>
    case Read(n) => LookupAgrees(fs, m, n);
    case Write(n, v) =>
      SetKept(m, n, v);
      KeptValid(m, Set(m, n, v));
      DefineAgrees(fs, m, n, v);
    case Then(b1, b2) =>
      var m1 := RunMatrix(b1, m).0;
      RunsAgree(b1, fs, m);
      RunsAgree(b2, RunFrames(b1, fs).0, m1);
      KeptTransitive(m, m1, RunMatrix(b2, m1).0);
    case Fold(body) =>
      OpensValid(m);
      EnterAgrees(fs, m, FoldStart(m));
      assert Mark(fs, true) == fs;
      RunsAgree(body, Enter(fs), FoldStart(m));
      FoldAgrees(fs, m, RunMatrix(body, FoldStart(m)).0, RunFrames(body, Enter(fs)).0);
    case Next(body) =>
      OpensValid(m);
      EnterAgrees(fs, m, NextBefore(m));
      var fs1, inner := Enter(Mark(fs, false)), RunMatrix(body, NextBefore(m)).0;
      RunsAgree(body, fs1, NextBefore(m));
      NextRestores(m, inner);
      LeaveAgrees(RunFrames(body, fs1).0, m, NextBefore(m), inner);
    case New(n, body) =>
      NewStartValid(m, n);
      ResetAgrees(fs, m, n);
      RunsAgree(body, Reset(fs, n), NewStart(m, n));
      var inner := RunMatrix(body, NewStart(m, n)).0;
      NewRestores(m, n, inner);
      KeptValid(m, NewEnd(inner, n).0);
      UnresetAgrees(RunFrames(body, Reset(fs, n)).0, m, n, inner);
  }

  /** From the empty store on, where a single visible frame defines nothing. */
  lemma RunsAgreeFromStart<T>(b: Block<T>)
    ensures RunMatrix(b, Empty()).1 == RunFrames(b, [Frame(true, map[])]).1
  {
    RunsAgree(b, [Frame(true, map[])], Empty());
  }

  /**
   * A variable set in one iteration cannot be read inside the `next` before it is
   * set there again, and has its value back after it.
   */
  lemma HiddenInNext<T>(m: Matrix<T>, name: string, value: T, inner: Matrix<T>)
    requires Valid(m) && m.depth != GLOBAL_DEPTH
    requires Kept(NextBefore(Set(m, name, value)), inner)
    ensures Get(NextBefore(Set(m, name, value)), name) == Err(VariableNotFound(name))
    ensures NextAfter(inner) == Set(m, name, value)
    ensures Get(NextAfter(inner), name) == Ok(Some(value))
  {
    SetKept(m, name, value);
    KeptValid(m, Set(m, name, value));
    NextRestores(Set(m, name, value), inner);
  }
}
