/**
 * Where the parts of a script stand in its text. Instructions nest and follow each
 * other, so the `new`s whose text contains a position are exactly those on the way
 * down to it, and the innermost one can be read off the text.
 */
module Texts {
  import opened Wrappers
  import opened Ast
  import opened Streams

  predicate IsPair(e: Instr) {
    e.Seq? || e.Par? || e.Xor?
  }

  predicate IsComparison(e: Instr) {
    e.Match? || e.MisMatch?
  }

  /** `new` restricts a stream or a stream map of this name. */
  predicate Restricts(a: NewArgument, id: StreamId) {
    a == if id.isMap then NewStreamMap(id.name) else NewStream(id.name)
  }

  /** The position an instruction looks a stream or a stream map up at. */
  predicate LooksUp(e: Instr, id: StreamId, position: nat) {
    match e
    case ApStream(_, x, p) => id == StreamId(false, x) && p == position
    case Canon(x, p, _) => id == StreamId(false, x) && p == position
    case ApMap(_, _, x, p) => id == StreamId(true, x) && p == position
    case CanonMap(x, p, _) => id == StreamId(true, x) && p == position
    case _ => false
  }

  /**
   * The text of `e` lies between two positions: its own positions do, the text of a
   * `new` encloses its body, and parts of one instruction follow each other.
   */
  ghost predicate Laid(e: Instr, lo: nat, hi: nat) {
    if IsPair(e) then exists mid: nat :: lo <= mid <= hi && Laid(e.first, lo, mid) && Laid(e.second, mid, hi)
    else if IsComparison(e) then Laid(e.body, lo, hi)
    else if e.New? then lo <= e.span.left < e.span.right <= hi && Laid(e.body, e.span.left + 1, e.span.right)
    else if e.Fold? then
      exists mid: nat :: lo <= mid <= hi && Laid(e.body, lo, mid) && (e.last.Some? ==> Laid(e.last.value, mid, hi))
    else if e.ApStream? || e.ApMap? || e.Canon? || e.CanonMap? then lo < e.position < hi
    else true
  }

  /** The innermost `new` of the name whose text contains the position. */
  function Innermost(e: Instr, id: StreamId, position: nat): Option<Span> {
    if IsPair(e) then Either(Innermost(e.first, id, position), Innermost(e.second, id, position))
    else if IsComparison(e) then Innermost(e.body, id, position)
    else if e.New? then
      if !e.span.Contains(position) then None
      else Either(Innermost(e.body, id, position), if Restricts(e.argument, id) then Some(e.span) else None)
    else if e.Fold? then
      Either(Innermost(e.body, id, position),
             if e.last.Some? then Innermost(e.last.value, id, position) else None)
    else None
  }

  function Either(a: Option<Span>, b: Option<Span>): Option<Span> {
    if a.Some? then a else b
  }

  /** Some `new` of the name in `e` has this text. */
  predicate HasNew(e: Instr, id: StreamId, span: Span) {
    if IsPair(e) then HasNew(e.first, id, span) || HasNew(e.second, id, span)
    else if IsComparison(e) then HasNew(e.body, id, span)
    else if e.New? then (Restricts(e.argument, id) && e.span == span) || HasNew(e.body, id, span)
    else if e.Fold? then
      HasNew(e.body, id, span) || (e.last.Some? && HasNew(e.last.value, id, span))
    else false
  }

  /** `e` stands in `root` inside these folds and `new`s, when `root` itself stands at `base`. */
  predicate Occurs(e: Instr, path: Path, root: Instr, base: Path) {
    || (e == root && path == base)
    || if IsPair(root) then Occurs(e, path, root.first, base) || Occurs(e, path, root.second, base)
       else if IsComparison(root) then Occurs(e, path, root.body, base)
       else if root.New? then Occurs(e, path, root.body, base + [NewScope(root.argument, root.span)])
       else if root.Fold? then
         || Occurs(e, path, root.body, base + [FoldScope(root.iter)])
         || (root.last.Some? && Occurs(e, path, root.last.value, base))
       else false
  }

  /** The texts of the `new`s of a name on a path, outermost first. */
  function Chain(path: Path, id: StreamId): seq<Span> {
    if path == [] then []
    else
      var rest := Chain(path[..|path| - 1], id);
      match path[|path| - 1]
      case NewScope(a, span) => if Restricts(a, id) then rest + [span] else rest
      case FoldScope(_) => rest
  }

  function LastOf(chain: seq<Span>): Option<Span> {
    if chain == [] then None else Some(chain[|chain| - 1])
  }

  // ---- occurrences ----

  lemma {:induction false} PartOccurs(e: Instr, path: Path, e': Instr, path': Path, root: Instr, base: Path)
    requires Occurs(e', path', e, path) && Occurs(e, path, root, base)
    ensures Occurs(e', path', root, base)
    decreases root
  {
    if !(e == root && path == base) {
      if IsPair(root) {
        PartOccurs(e, path, e', path', if Occurs(e, path, root.first, base) then root.first else root.second, base);
      } else if IsComparison(root) {
        PartOccurs(e, path, e', path', root.body, base);
      } else if root.New? {
        PartOccurs(e, path, e', path', root.body, base + [NewScope(root.argument, root.span)]);
      } else if Occurs(e, path, root.body, base + [FoldScope(root.iter)]) {
        PartOccurs(e, path, e', path', root.body, base + [FoldScope(root.iter)]);
      } else {
        PartOccurs(e, path, e', path', root.last.value, base);
      }
    }
  }

  /** The instructions directly inside an instruction. */
  lemma PartsOccur(e: Instr, path: Path, root: Instr, base: Path)
    requires Occurs(e, path, root, base)
    ensures IsPair(e) ==> Occurs(e.first, path, root, base) && Occurs(e.second, path, root, base)
    ensures IsComparison(e) ==> Occurs(e.body, path, root, base)
    ensures e.New? ==> Occurs(e.body, path + [NewScope(e.argument, e.span)], root, base)
    ensures e.Fold? ==> Occurs(e.body, path + [FoldScope(e.iter)], root, base)
    ensures e.Fold? && e.last.Some? ==> Occurs(e.last.value, path, root, base)
  {
    if IsPair(e) {
      PartOccurs(e, path, e.first, path, root, base);
      PartOccurs(e, path, e.second, path, root, base);
    } else if IsComparison(e) {
      PartOccurs(e, path, e.body, path, root, base);
    } else if e.New? {
      PartOccurs(e, path, e.body, path + [NewScope(e.argument, e.span)], root, base);
    } else if e.Fold? {
      PartOccurs(e, path, e.body, path + [FoldScope(e.iter)], root, base);
      if e.last.Some? {
        PartOccurs(e, path, e.last.value, path, root, base);
      }
    }
  }

  // ---- text and paths ----

  lemma {:induction false} NewsInside(e: Instr, lo: nat, hi: nat, id: StreamId, span: Span)
    requires Laid(e, lo, hi) && HasNew(e, id, span)
    ensures lo <= span.left < span.right <= hi
    decreases e
  {
    if IsPair(e) {
      var mid: nat :| lo <= mid <= hi && Laid(e.first, lo, mid) && Laid(e.second, mid, hi);
      if HasNew(e.first, id, span) {
        NewsInside(e.first, lo, mid, id, span);
      } else {
        NewsInside(e.second, mid, hi, id, span);
      }
    } else if IsComparison(e) {
      NewsInside(e.body, lo, hi, id, span);
    } else if e.Fold? {
      var mid: nat :| lo <= mid <= hi && Laid(e.body, lo, mid) && (e.last.Some? ==> Laid(e.last.value, mid, hi));
      if HasNew(e.body, id, span) {
        NewsInside(e.body, lo, mid, id, span);
      } else {
        NewsInside(e.last.value, mid, hi, id, span);
      }
    } else if !(Restricts(e.argument, id) && e.span == span) {
      NewsInside(e.body, e.span.left + 1, e.span.right, id, span);
    }
  }

  /** The innermost `new` around a position is one that contains it. */
  lemma {:induction false} InnermostContains(e: Instr, id: StreamId, position: nat)
    ensures var found := Innermost(e, id, position);
      found.Some? ==> HasNew(e, id, found.value) && found.value.Contains(position)
    decreases e
  {
    if IsPair(e) {
      InnermostContains(e.first, id, position);
      InnermostContains(e.second, id, position);
    } else if IsComparison(e) || e.New? {
      InnermostContains(e.body, id, position);
    } else if e.Fold? {
      InnermostContains(e.body, id, position);
      if e.last.Some? {
        InnermostContains(e.last.value, id, position);
      }
    }
  }

  lemma NothingOutside(e: Instr, lo: nat, hi: nat, id: StreamId, position: nat)
    requires Laid(e, lo, hi) && (position <= lo || hi <= position)
    ensures Innermost(e, id, position).None?
    ensures forall span | HasNew(e, id, span) :: !span.Contains(position)
  {
    forall span | HasNew(e, id, span)
      ensures !span.Contains(position)
    {
      NewsInside(e, lo, hi, id, span);
    }
    InnermostContains(e, id, position);
  }

  lemma {:induction false} ChainConcat(a: Path, b: Path, id: StreamId)
    ensures Chain(a + b, id) == Chain(a, id) + Chain(b, id)
  {
    if b == [] {
      assert a + b == a;
    } else {
      assert (a + b)[..|a + b| - 1] == a + b[..|b| - 1];
      ChainConcat(a, b[..|b| - 1], id);
    }
  }

  lemma ChainFirst(scope: Scope, rest: Path, id: StreamId)
    ensures Chain([scope] + rest, id)
         == (if scope.NewScope? && Restricts(scope.argument, id) then [scope.span] else []) + Chain(rest, id)
  {
    ChainConcat([scope], rest, id);
    assert [scope][..0] == [];
  }

  /**
   * What the way down to a part of the text says about a position in it: the `new`s
   * on the way are all that contain it, and the last of them is the innermost one.
   */
  ghost predicate Decided(root: Instr, way: Path, id: StreamId, position: nat) {
    var chain := Chain(way, id);
    && Innermost(root, id, position) == LastOf(chain)
    && (forall span {:trigger span in chain} {:trigger HasNew(root, id, span)} ::
          span in chain <==> HasNew(root, id, span) && span.Contains(position))
  }

  /** The same for a part of a pair: the other part does not matter. */
  lemma DecidedInPair(root: Instr, part: Instr, other: Instr, way: Path, id: StreamId, position: nat)
    requires Decided(part, way, id, position)
    requires Innermost(other, id, position).None?
    requires forall span | HasNew(other, id, span) :: !span.Contains(position)
    requires Innermost(root, id, position) == Innermost(part, id, position)
    requires forall span :: HasNew(root, id, span) <==>
      HasNew(part, id, span) || HasNew(other, id, span)
    ensures Decided(root, way, id, position)
  {
  }

  lemma {:induction false} PathDecides(e: Instr, path: Path, root: Instr, base: Path, lo: nat, hi: nat,
                                       id: StreamId, position: nat)
    requires Occurs(e, path, root, base) && Laid(root, lo, hi) && LooksUp(e, id, position)
    ensures lo < position < hi && base <= path
    ensures Decided(root, path[|base|..], id, position)
    decreases root, 1
  {
    if e == root && path == base {
      assert path[|base|..] == [];
    } else if IsPair(root) {
      var mid: nat :| lo <= mid <= hi && Laid(root.first, lo, mid) && Laid(root.second, mid, hi);
      if Occurs(e, path, root.first, base) {
        PathDecides(e, path, root.first, base, lo, mid, id, position);
        NothingOutside(root.second, mid, hi, id, position);
        DecidedInPair(root, root.first, root.second, path[|base|..], id, position);
      } else {
        PathDecides(e, path, root.second, base, mid, hi, id, position);
        NothingOutside(root.first, lo, mid, id, position);
        DecidedInPair(root, root.second, root.first, path[|base|..], id, position);
      }
    } else if IsComparison(root) {
      PathDecides(e, path, root.body, base, lo, hi, id, position);
      DecidedInPair(root, root.body, Null, path[|base|..], id, position);
    } else if root.New? {
      var scope := NewScope(root.argument, root.span);
      PathDecides(e, path, root.body, base + [scope], root.span.left + 1, root.span.right, id, position);
      DecidedInNew(root, path, base, id, position);
    } else {
      PathDecidesInFold(e, path, root, base, lo, hi, id, position);
    }
  }

  lemma {:induction false} PathDecidesInFold(e: Instr, path: Path, root: Instr, base: Path, lo: nat, hi: nat,
                                             id: StreamId, position: nat)
    requires Occurs(e, path, root, base) && Laid(root, lo, hi) && LooksUp(e, id, position)
    requires root.Fold?
    ensures lo < position < hi && base <= path
    ensures Decided(root, path[|base|..], id, position)
    decreases root, 0
  {
    var mid: nat :| lo <= mid <= hi && Laid(root.body, lo, mid) && (root.last.Some? ==> Laid(root.last.value, mid, hi));
    var last := if root.last.Some? then root.last.value else Null;
    if Occurs(e, path, root.body, base + [FoldScope(root.iter)]) {
      PathDecides(e, path, root.body, base + [FoldScope(root.iter)], lo, mid, id, position);
      DecidedInBody(root, path, base, id, position);
      NothingOutside(last, mid, hi, id, position);
      DecidedInPair(root, root.body, last, path[|base|..], id, position);
    } else {
      PathDecides(e, path, last, base, mid, hi, id, position);
      NothingOutside(root.body, lo, mid, id, position);
      DecidedInPair(root, last, root.body, path[|base|..], id, position);
    }
  }

  /** A fold on the way down is no `new`. */
  lemma DecidedInBody(root: Instr, path: Path, base: Path, id: StreamId, position: nat)
    requires root.Fold? && base + [FoldScope(root.iter)] <= path
    requires Decided(root.body, path[|base| + 1..], id, position)
    ensures Decided(root.body, path[|base|..], id, position)
  {
    var inner := path[|base| + 1..];
    assert path[|base|..] == [FoldScope(root.iter)] + inner;
    ChainFirst(FoldScope(root.iter), inner, id);
  }

  lemma DecidedInNew(root: Instr, path: Path, base: Path, id: StreamId, position: nat)
    requires root.New? && base + [NewScope(root.argument, root.span)] <= path && root.span.Contains(position)
    requires Decided(root.body, path[|base| + 1..], id, position)
    ensures Decided(root, path[|base|..], id, position)
  {
    var scope := NewScope(root.argument, root.span);
    var inner := path[|base| + 1..];
    assert path[|base|..] == [scope] + inner;
    ChainFirst(scope, inner, id);
  }

  /** A `new` starts later in the text than the ones around it. */
  lemma {:induction false} NewIsInner(e: Instr, path: Path, root: Instr, base: Path, lo: nat, hi: nat, id: StreamId)
    requires Occurs(e, path, root, base) && Laid(root, lo, hi) && e.New?
    ensures lo <= e.span.left && base <= path
    ensures forall span | span in Chain(path[|base|..], id) :: span.left < e.span.left
    ensures Restricts(e.argument, id) ==> HasNew(root, id, e.span)
    decreases root
  {
    if e == root && path == base {
      assert path[|base|..] == [];
    } else if IsPair(root) {
      var mid: nat :| lo <= mid <= hi && Laid(root.first, lo, mid) && Laid(root.second, mid, hi);
      if Occurs(e, path, root.first, base) {
        NewIsInner(e, path, root.first, base, lo, mid, id);
      } else {
        NewIsInner(e, path, root.second, base, mid, hi, id);
      }
    } else if IsComparison(root) {
      NewIsInner(e, path, root.body, base, lo, hi, id);
    } else if root.New? {
      var scope := NewScope(root.argument, root.span);
      NewIsInner(e, path, root.body, base + [scope], root.span.left + 1, root.span.right, id);
      assert path[|base|..] == [scope] + path[|base| + 1..];
      ChainFirst(scope, path[|base| + 1..], id);
    } else {
      var mid: nat :| lo <= mid <= hi && Laid(root.body, lo, mid) && (root.last.Some? ==> Laid(root.last.value, mid, hi));
      var scope := FoldScope(root.iter);
      if Occurs(e, path, root.body, base + [scope]) {
        NewIsInner(e, path, root.body, base + [scope], lo, mid, id);
        assert path[|base|..] == [scope] + path[|base| + 1..];
        ChainFirst(scope, path[|base| + 1..], id);
      } else {
        NewIsInner(e, path, root.last.value, base, mid, hi, id);
      }
    }
  }
}
