/** The testing framework's reading of a script: calls, canons, and other lists of symbols and strings. */
module Sexps {
  import opened Wrappers

  /** What an annotation behind a call says its service does; the text is kept as it is. */
  datatype ServiceDefinition = ServiceDefinition(text: string)

  datatype Sexp =
    | Call(peer: Sexp, service: Sexp, func: Sexp, args: seq<Sexp>, output: Option<Sexp>, definition: Option<ServiceDefinition>)
    | Canon(peer: Sexp, stream: Sexp, target: Sexp)
    | List(items: seq<Sexp>)
    | Symbol(name: string)
    | Quoted(text: string)

  // ---- printing ----

  function Print(s: Sexp): string {
    match s
    case Call(peer, service, func, args, output, _) =>
      "(call " + Print(peer) + " (" + Print(service) + " " + Print(func) + ") [" + PrintAll(args) + "]"
      + (match output case None => "" case Some(v) => " " + Print(v)) + ")"
    case Canon(peer, stream, target) =>
      "(canon " + Print(peer) + " " + Print(stream) + " " + Print(target) + ")"
    case List(items) => "(" + PrintAll(items) + ")"
    case Symbol(name) => name
    case Quoted(text) => "\"" + text + "\""
  }

  /** One space between the items. */
  function PrintAll(items: seq<Sexp>): string {
    if items == [] then "" else Print(items[0]) + PrintMore(items[1..])
  }

  function PrintMore(items: seq<Sexp>): string {
    if items == [] then "" else " " + Print(items[0]) + PrintMore(items[1..])
  }

  // ---- what can be read back ----

  predicate IsAlphanumeric(c: char) {
    'a' <= c <= 'z' || 'A' <= c <= 'Z' || '0' <= c <= '9'
  }

  predicate IsSymbolChar(c: char) {
    IsAlphanumeric(c) || c in "_-.:$#%"
  }

  predicate IsSpace(c: char) {
    c == ' ' || c == '\t' || c == '\r' || c == '\n'
  }

  /** The longest prefix of symbol characters. */
  function RunOf(s: string): nat
    ensures RunOf(s) <= |s|
  {
    if s != "" && IsSymbolChar(s[0]) then 1 + RunOf(s[1..]) else 0
  }

  /** Symbol characters, and possibly another symbol in brackets with an exclamation mark after them or not. */
  predicate IsSymbol(s: string) {
    var n := RunOf(s);
    && n > 0
    && (n == |s| || (s[n] == '[' && BracketEnd(s) > n + 1 && IsSymbol(s[n + 1..BracketEnd(s)]) && s[BracketEnd(s)] == ']'))
  }

  /** Where the closing bracket has to be. */
  function BracketEnd(s: string): int
    ensures BracketEnd(s) < |s|
  {
    if |s| > 0 && s[|s| - 1] == '!' then |s| - 2 else |s| - 1
  }

  /** Lists that look like a call or a canon when printed. */
  predicate Misleading(items: seq<Sexp>) {
    |items| >= 2 && (items[0] == Symbol("call") || items[0] == Symbol("canon"))
  }

  predicate WellFormed(s: Sexp) {
    match s
    case Call(peer, service, func, args, output, definition) =>
      && WellFormed(peer)
      && service.Quoted? && WellFormed(service)
      && WellFormed(func)
      && (forall a | a in args :: WellFormed(a))
      && (output.Some? ==> output.value.Symbol? && WellFormed(output.value))
      && definition == None
    case Canon(peer, stream, target) =>
      WellFormed(peer) && stream.Symbol? && WellFormed(stream) && target.Symbol? && WellFormed(target)
    case List(items) => (forall x | x in items :: WellFormed(x)) && !Misleading(items)
    case Symbol(name) => IsSymbol(name)
    case Quoted(text) => '\"' !in text
  }

  // ---- annotations ----

  /** Attaches a definition to the last call of a list. */
  function Inject(s: Sexp, d: ServiceDefinition): Option<Sexp> {
    match s
    case Call(_, _, _, _, _, _) => Some(s.(definition := Some(d)))
    case List(items) =>
      if items == [] then None
      else
        (match Inject(items[|items| - 1], d)
         case Some(last) => Some(List(items[..|items| - 1] + [last]))
         case None => None)
    case _ => None
  }
}
