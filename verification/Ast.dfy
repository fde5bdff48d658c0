/** AIR instructions, and the scoping rule the AIR parser enforces on iterators. */
module Ast {
  import opened Wrappers
  import opened Json
  import opened Streams

  datatype Operand =
    | Literal(value: JValue)
    | Scalar(name: string)
    | CanonStreamOf(name: string)
    | ErrorObject
    | LastErrorObject
  {
    function Text(): string {
      match this
      case Literal(JString(s)) => "\"" + s + "\""
      case Literal(JNumber(Int(i))) => Decimal(i)
      case Literal(JBool(b)) => if b then "true" else "false"
      case Literal(_) => "[]"
      case Scalar(name) => name
      case CanonStreamOf(name) => name
      case ErrorObject => ":error:"
      case LastErrorObject => "%last_error%"
    }
  }

  datatype KeyClause = KeyLiteral(s: string) | KeyInt(i: int) | KeyScalar(name: string) {
    function Text(): string {
      match this
      case KeyLiteral(s) => "\"" + s + "\""
      case KeyInt(i) => Decimal(i)
      case KeyScalar(name) => name
    }
  }

  datatype FailArgument = FailLiteral(code: int, message: string) | FailScalar(name: string) | FailLastError | FailError {
    function Text(): string {
      match this
      case FailLiteral(code, message) => Decimal(code) + " \"" + message + "\""
      case FailScalar(name) => name
      case FailLastError => "%last_error%"
      case FailError => ":error:"
    }
  }

  datatype Iterable = OverScalar(name: string) | OverCanonStream(name: string) | OverCanonMap(name: string) | EmptyArray {
    function Text(): string {
      if EmptyArray? then "[]" else name
    }
  }

  /** A stream, or a stream map, by name. */
  datatype StreamId = StreamId(isMap: bool, name: string)

  datatype NewArgument =
    | NewScalar(name: string)
    | NewCanonStream(name: string)
    | NewCanonMap(name: string)
    | NewStream(name: string)
    | NewStreamMap(name: string)

  datatype Instr =
    | Null
    | Never
    | Ap(value: Operand, scalar: string)
    | ApStream(value: Operand, stream: string, position: nat)
    | ApMap(key: KeyClause, value: Operand, streamMap: string, position: nat)
    | Canon(stream: string, position: nat, canonStream: string)
    | CanonMap(streamMap: string, position: nat, canonMap: string)
    | Call(peer: string, args: seq<Operand>, output: Option<string>)
    | Fail(what: FailArgument)
    | Match(left: Operand, right: Operand, body: Instr)
    | MisMatch(left: Operand, right: Operand, body: Instr)
    | Seq(first: Instr, second: Instr)
    | Par(first: Instr, second: Instr)
    | Xor(first: Instr, second: Instr)
    | New(argument: NewArgument, span: Span, body: Instr)
    | Fold(iterable: Iterable, iter: string, body: Instr, last: Option<Instr>)
    | Next(iter: string)
  {
    /** The instruction itself, without what is nested in it. */
    function Text(): string {
      match this
      case Null => "null"
      case Never => "never"
      case Ap(v, x) => "ap " + v.Text() + " " + x
      case ApStream(v, x, _) => "ap " + v.Text() + " " + x
      case ApMap(k, v, x, _) => "ap (" + k.Text() + " " + v.Text() + ") " + x
      case Canon(s, _, x) => "canon " + s + " " + x
      case CanonMap(s, _, x) => "canon " + s + " " + x
      case Call(p, args, out) => "call " + p + " [" + ArgsText(args) + "] " + if out.Some? then out.value else ""
      case Fail(w) => "fail " + w.Text()
      case Match(l, r, _) => "match " + l.Text() + " " + r.Text()
      case MisMatch(l, r, _) => "mismatch " + l.Text() + " " + r.Text()
      case Seq(_, _) => "seq"
      case Par(_, _) => "par"
      case Xor(_, _) => "xor"
      case New(a, _, _) => "new " + a.name
      case Fold(it, i, _, _) => "fold " + it.Text() + " " + i
      case Next(i) => "next " + i
    }

    /** Errors of these instructions are shown with the peer they arose on. */
    predicate LogsErrorsWithPeerId() {
      Call? || Canon? || CanonMap?
    }
  }

  function ArgsText(args: seq<Operand>): string {
    if args == [] then ""
    else if |args| == 1 then args[0].Text()
    else args[0].Text() + " " + ArgsText(args[1..])
  }

  // ---- lexical scopes ----

  /** The folds and news whose text encloses an instruction, outermost first. */
  datatype Scope = FoldScope(iter: string) | NewScope(argument: NewArgument, span: Span)

  type Path = seq<Scope>

  function FoldsIn(path: Path): nat {
    if path == [] then 0 else FoldsIn(path[..|path| - 1]) + if path[|path| - 1].FoldScope? then 1 else 0
  }

  /** Where the fold with this iterator stands in the path. */
  function FoldAt(path: Path, iter: string): (k: nat)
    requires FoldScope(iter) in path
    ensures k < |path| && path[k] == FoldScope(iter)
  {
    if path[|path| - 1] == FoldScope(iter) then |path| - 1 else FoldAt(path[..|path| - 1], iter)
  }

  lemma {:induction false} FoldsInPrefix(path: Path, k: nat)
    requires k <= |path|
    ensures FoldsIn(path[..k]) <= FoldsIn(path)
    ensures k < |path| && path[k].FoldScope? ==> FoldsIn(path[..k]) < FoldsIn(path)
  {
    if k == |path| {
      assert path[..k] == path;
    } else {
      var init := path[..|path| - 1];
      assert init[..k] == path[..k];
      FoldsInPrefix(init, k);
    }
  }

  /**
   * The parser's rule: a `next` stands inside the fold of its iterator. Its last
   * instruction is not part of that body, so it may only name iterators further out.
   * `names` lists the iterators of the whole script.
   */
  predicate Scoped(e: Instr, path: Path, names: seq<string>) {
    match e
    case Next(i) => FoldScope(i) in path
    case Fold(_, i, body, last) =>
      && i in names
      && Scoped(body, path + [FoldScope(i)], names)
      && (match last case None => true case Some(l) => Scoped(l, path, names))
    case New(a, span, body) => Scoped(body, path + [NewScope(a, span)], names)
    case Match(_, _, body) => Scoped(body, path, names)
    case MisMatch(_, _, body) => Scoped(body, path, names)
    case Seq(a, b) => Scoped(a, path, names) && Scoped(b, path, names)
    case Par(a, b) => Scoped(a, path, names) && Scoped(b, path, names)
    case Xor(a, b) => Scoped(a, path, names) && Scoped(b, path, names)
    case _ => true
  }
}
