/**
 * The parser of annotated scripts. It is put together from parsers that either take
 * a prefix of the input, or miss, so that an alternative can be tried, or fail for good.
 */
module SexpParser {
  import opened Wrappers
  import opened Sexps

  datatype Parsed<+T> = Done(value: T, rest: string) | Miss | Failure

  // ---- white space and comments ----

  function Tag(tag: string, inp: string): Option<string> {
    if tag <= inp then Some(inp[|tag|..]) else None
  }

  function SkipSpaces(inp: string): (r: string)
    ensures r == inp || |r| < |inp|
  {
    if inp != "" && IsSpace(inp[0]) then SkipSpaces(inp[1..]) else inp
  }

  function SkipLine(inp: string): (r: string)
    ensures r == inp || |r| < |inp|
  {
    if inp != "" && inp[0] != '\r' && inp[0] != '\n' then SkipLine(inp[1..]) else inp
  }

  /** A comment has at least one character behind its semicolons. */
  function SkipComment(inp: string): (r: string)
    ensures r == inp || |r| < |inp|
  {
    match Tag(";;", inp)
    case Some(rest) => if SkipLine(rest) == rest then inp else SkipLine(rest)
    case None => inp
  }

  function Space0(inp: string): (r: string)
    ensures |r| <= |inp|
    decreases |inp|
  {
    if inp != "" && IsSpace(inp[0]) then
      var rest := SkipSpaces(inp[1..]);
      Space0(SkipComment(rest))
    else inp
  }

  /** White space or a comment, at least once. */
  function Space1(inp: string): (r: Option<string>)
    ensures r.Some? ==> |r.value| < |inp|
    decreases |inp|
  {
    var rest := SkipSpaces(inp);
    var next := SkipComment(rest);
    if next == inp then None
    else match Space1(next) case Some(r) => Some(r) case None => Some(next)
  }

  /** Plain white space, at least once. */
  function Blank1(inp: string): (r: Option<string>)
    ensures r.Some? ==> |r.value| < |inp|
  {
    if inp != "" && IsSpace(inp[0]) then Some(SkipSpaces(inp[1..])) else None
  }

  // ---- symbols and strings ----

  /** What is left behind a symbol. */
  function AfterSymbol(inp: string): (r: Option<string>)
    ensures r.Some? ==> |r.value| < |inp|
    decreases |inp|
  {
    var n := RunOf(inp);
    if n == 0 then None
    else
      match AfterBrackets(inp[n..])
      case Some(rest) => Some(rest)
      case None => Some(inp[n..])
  }

  function AfterBrackets(inp: string): (r: Option<string>)
    ensures r.Some? ==> |r.value| < |inp|
    decreases |inp|
  {
    if inp == "" || inp[0] != '[' then None
    else
      match AfterSymbol(inp[1..])
      case None => None
      case Some(rest) =>
        if rest == "" || rest[0] != ']' then None
        else if |rest| > 1 && rest[1] == '!' then Some(rest[2..])
        else Some(rest[1..])
  }

  function ParseSymbol(inp: string): (r: Parsed<Sexp>)
    ensures r.Done? ==> |r.rest| < |inp|
  {
    match AfterSymbol(inp)
    case Some(rest) => Done(Symbol(inp[..|inp| - |rest|]), rest)
    case None => Miss
  }

  /** The position of the first quote, or the end. */
  function QuoteAt(inp: string): nat
    ensures QuoteAt(inp) <= |inp|
  {
    if inp == "" || inp[0] == '\"' then 0 else 1 + QuoteAt(inp[1..])
  }

  function ParseString(inp: string): (r: Parsed<Sexp>)
    ensures r.Done? ==> |r.rest| < |inp|
  {
    if inp == "" || inp[0] != '\"' then Miss
    else
      var n := QuoteAt(inp[1..]);
      if n == |inp[1..]| then Failure else Done(Quoted(inp[1..][..n]), inp[1..][n + 1..])
  }

  // ---- annotations ----

  function SkipBlanks(inp: string): (r: string)
    ensures r == inp || |r| < |inp|
  {
    if inp != "" && (inp[0] == ' ' || inp[0] == '\t') then SkipBlanks(inp[1..]) else inp
  }

  predicate StartsAnnotation(inp: string) {
    SkipBlanks(inp) != inp && ("; " <= SkipBlanks(inp) || "#|" <= SkipBlanks(inp))
  }

  /** The position of the end mark of a block annotation, or the end. */
  function BlockEnd(inp: string): nat
    ensures BlockEnd(inp) <= |inp|
    ensures BlockEnd(inp) < |inp| ==> BlockEnd(inp) + 2 <= |inp|
  {
    if inp == "" || "|#" <= inp then 0 else 1 + BlockEnd(inp[1..])
  }

  function ParseAnnotation(inp: string): (r: Parsed<Option<ServiceDefinition>>)
    ensures r.Done? ==> |r.rest| <= |inp|
    ensures !StartsAnnotation(inp) ==> r == Done(None, inp)
    ensures StartsAnnotation(inp) ==> r.Failure? || (r.Done? && r.value.Some? && |r.rest| < |inp|)
  {
    var rest := SkipBlanks(inp);
    if rest == inp then Done(None, inp)
    else if "; " <= rest then
      var line := rest[2..];
      var end := SkipLine(line);
      if end == line then Failure else Done(Some(ServiceDefinition(line[..|line| - |end|])), end)
    else if "#|" <= rest then
      var block := rest[2..];
      var n := BlockEnd(block);
      if n == |block| then Failure else Done(Some(ServiceDefinition(block[..n])), block[n + 2..])
    else Done(None, inp)
  }

  // ---- lists ----

  /** Once the kind of a list is known there are no other alternatives. */
  function Cut<T>(r: Parsed<T>): Parsed<T> {
    if r.Miss? then Failure else r
  }

  function ParseSexp(inp: string): (r: Parsed<Sexp>)
    ensures r.Done? ==> |r.rest| < |inp|
    decreases |inp|, 4
  {
    var call := ParseCall(inp);
    if !call.Miss? then call
    else
      var canon := ParseCanon(inp);
      if !canon.Miss? then canon
      else
        var list := ParseList(inp);
        if !list.Miss? then list
        else
          var str := ParseString(inp);
          if !str.Miss? then str else ParseSymbol(inp)
  }

  /** An opening parenthesis and a keyword. */
  function Head(keyword: string, inp: string): (r: Option<string>)
    ensures r.Some? ==> |r.value| < |inp|
  {
    match Tag("(", Space0(inp))
    case None => None
    case Some(rest) => Tag(keyword, Space0(rest))
  }

  function ParseCall(inp: string): (r: Parsed<Sexp>)
    ensures r.Done? ==> |r.rest| < |inp| && r.value.Call?
    decreases |inp|, 3
  {
    match Head("call ", inp)
    case None => Miss
    case Some(rest) => Cut(ParseCallContent(rest))
  }

  function ParseCallContent(inp: string): (r: Parsed<Sexp>)
    ensures r.Done? ==> |r.rest| < |inp| && r.value.Call?
    decreases |inp|, 6
  {
    match ParseSexp(inp)
    case Miss => Miss
    case Failure => Failure
    case Done(peer, r1) =>
      match Tag("(", Space0(Space0(r1)))
      case None => Miss
      case Some(r2) =>
        match ParseString(Space0(r2))
        case Miss => Miss
        case Failure => Failure
        case Done(service, r3) =>
          match ParseSexp(Space0(r3))
          case Miss => Miss
          case Failure => Failure
          case Done(func, r4) =>
            match Tag(")", Space0(r4))
            case None => Miss
            case Some(r5) => ParseCallEnd(peer, service, func, Space0(r5))
  }

  function ParseCallEnd(peer: Sexp, service: Sexp, func: Sexp, inp: string): (r: Parsed<Sexp>)
    ensures r.Done? ==> |r.rest| < |inp| && r.value.Call?
    decreases |inp|, 6
  {
    match Tag("[", inp)
    case None => Miss
    case Some(r1) =>
      match ParseItems(r1, false)
      case Miss => Miss
      case Failure => Failure
      case Done(args, r2) =>
        match Tag("]", r2)
        case None => Miss
        case Some(r3) =>
          var (output, r4) := ParseOutput(r3);
          match Tag(")", Space0(r4))
          case None => Miss
          case Some(r5) =>
            match ParseAnnotation(r5)
            case Miss => Miss
            case Failure => Failure
            case Done(definition, r6) => Done(Call(peer, service, func, args, output, definition), r6)
  }

  function ParseOutput(inp: string): (r: (Option<Sexp>, string))
    ensures |r.1| <= |inp|
  {
    match Space1(inp)
    case None => (None, inp)
    case Some(rest) =>
      match ParseSymbol(rest)
      case Done(v, rest') => (Some(v), rest')
      case _ => (None, inp)
  }

  function ParseCanon(inp: string): (r: Parsed<Sexp>)
    ensures r.Done? ==> |r.rest| < |inp| && r.value.Canon?
    decreases |inp|, 3
  {
    match Head("canon ", inp)
    case None => Miss
    case Some(rest) => Cut(ParseCanonContent(rest))
  }

  function ParseCanonContent(inp: string): (r: Parsed<Sexp>)
    ensures r.Done? ==> |r.rest| < |inp| && r.value.Canon?
    decreases |inp|, 6
  {
    match ParseSexp(inp)
    case Miss => Miss
    case Failure => Failure
    case Done(peer, r1) =>
      match Space1(r1)
      case None => Miss
      case Some(r2) =>
        match ParseSymbol(r2)
        case Miss => Miss
        case Failure => Failure
        case Done(stream, r3) =>
          match Space1(r3)
          case None => Miss
          case Some(r4) =>
            match ParseSymbol(r4)
            case Miss => Miss
            case Failure => Failure
            case Done(target, r5) =>
              match Tag(")", Space0(r5))
              case None => Miss
              case Some(r6) => Done(Canon(peer, stream, target), r6)
  }

  function ParseList(inp: string): (r: Parsed<Sexp>)
    ensures r.Done? ==> |r.rest| < |inp|
    decreases |inp|, 3
  {
    match Tag("(", inp)
    case None => Miss
    case Some(r1) =>
      match Cut(ParseListContent(Space0(r1)))
      case Failure => Failure
      case Miss => Miss
      case Done(content, r2) =>
        match content.1
        case None => Done(content.0, r2)
        case Some(d) =>
          match Inject(content.0, d)
          case Some(s') => Done(s', r2)
          case None => Miss
  }

  function ParseListContent(inp: string): (r: Parsed<(Sexp, Option<ServiceDefinition>)>)
    ensures r.Done? ==> |r.rest| < |inp|
    decreases |inp|, 6
  {
    match ParseItems(inp, true)
    case Miss => Miss
    case Failure => Failure
    case Done(items, r1) =>
      match Tag(")", Space0(r1))
      case None => Miss
      case Some(r2) =>
        match ParseAnnotation(r2)
        case Miss => Miss
        case Failure => Failure
        case Done(definition, r3) => Done((List(items), definition), r3)
  }

  /** Items with white space between them; comments count as white space where they are allowed. */
  function ParseItems(inp: string, comments: bool): (r: Parsed<seq<Sexp>>)
    ensures r.Done? ==> |r.rest| <= |inp|
    decreases |inp|, 5
  {
    match ParseSexp(inp)
    case Miss => Done([], inp)
    case Failure => Failure
    case Done(x, rest) =>
      match ParseMore(rest, comments)
      case Miss => Miss
      case Failure => Failure
      case Done(xs, rest') => Done([x] + xs, rest')
  }

  function Separator(inp: string, comments: bool): (r: Option<string>)
    ensures r.Some? ==> |r.value| < |inp|
  {
    if comments then Space1(inp) else Blank1(inp)
  }

  function ParseMore(inp: string, comments: bool): (r: Parsed<seq<Sexp>>)
    ensures r.Done? ==> |r.rest| <= |inp|
    decreases |inp|, 5
  {
    match Separator(inp, comments)
    case None => Done([], inp)
    case Some(next) =>
      match ParseSexp(next)
      case Miss => Done([], inp)
      case Failure => Failure
      case Done(x, rest) =>
        match ParseMore(rest, comments)
        case Miss => Miss
        case Failure => Failure
        case Done(xs, rest') => Done([x] + xs, rest')
  }

  /** A whole script, with white space around it and nothing else. */
  function FromStr(inp: string): Option<Sexp> {
    match ParseSexp(Space0(inp))
    case Done(s, rest) => if Space0(rest) == "" then Some(s) else None
    case _ => None
  }
}
