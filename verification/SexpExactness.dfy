/**
 * Which scripts are read back. What the parser returns always obeys the grammar; and a
 * list that looks like a call or a canon without being one, anywhere in a script, is
 * lost. So exactly the well-formed scripts are read back from their printed form.
 */
module SexpExactness {
  import opened Wrappers
  import opened Sexps
  import opened SexpParser
  import opened SexpRoundTrip

  /** Symbols and strings obey the grammar, and stand where the grammar wants them. */
  predicate Shaped(s: Sexp) {
    match s
    case Call(peer, service, func, args, output, _) =>
      && Shaped(peer) && service.Quoted? && Shaped(service) && Shaped(func)
      && (forall a | a in args :: Shaped(a))
      && (output.Some? ==> output.value.Symbol? && Shaped(output.value))
    case Canon(peer, stream, target) =>
      Shaped(peer) && stream.Symbol? && Shaped(stream) && target.Symbol? && Shaped(target)
    case List(items) => forall x | x in items :: Shaped(x)
    case Symbol(name) => IsSymbol(name)
    case Quoted(text) => '\"' !in text
  }

  // ---- what the parser returns ----

  lemma {:induction false} SkippedSuffix(inp: string)
    ensures RunOf(inp[..RunOf(inp)]) == RunOf(inp)
    ensures RunOf(inp) < |inp| ==> !IsSymbolChar(inp[RunOf(inp)])
  {
    var n := RunOf(inp);
    if n > 0 {
      SkippedSuffix(inp[1..]);
      assert inp[..n][1..] == inp[1..][..n - 1];
    }
  }

  lemma {:induction false} RunOfPrefix(inp: string, m: nat)
    requires RunOf(inp) < m <= |inp|
    ensures RunOf(inp[..m]) == RunOf(inp)
  {
    if RunOf(inp) > 0 {
      RunOfPrefix(inp[1..], m - 1);
      assert inp[..m][1..] == inp[1..][..m - 1];
    }
  }

  /** Where a symbol was taken there is a symbol. */
  lemma {:induction false} TakenIsSymbol(inp: string) returns (name: string)
    requires AfterSymbol(inp).Some?
    ensures IsSymbol(name) && name <= inp && inp[|name|..] == AfterSymbol(inp).value
    decreases |inp|
  {
    var n := RunOf(inp);
    if AfterBrackets(inp[n..]).Some? {
      var inner := inp[n..][1..];
      var more := TakenIsSymbol(inner);
      name := BracketsAreTaken(inp, n, inner, more, AfterSymbol(inner).value);
    } else {
      SkippedSuffix(inp);
      name := inp[..n];
    }
  }

  lemma BracketsAreTaken(inp: string, n: nat, inner: string, more: string, mid: string) returns (name: string)
    requires 0 < n == RunOf(inp) < |inp| && inp[n] == '[' && inner == inp[n..][1..]
    requires more <= inner && inner[|more|..] == mid && IsSymbol(more) && mid != "" && mid[0] == ']'
    ensures IsSymbol(name) && name <= inp
    ensures inp[|name|..] == if |mid| > 1 && mid[1] == '!' then mid[2..] else mid[1..]
  {
    Slices(inp, n, |more|);
    var m := n + 2 + |more|;
    BehindBrackets(inp, m - 1, mid);
    if |mid| > 1 && mid[1] == '!' {
      m := m + 1;
    }
    BracketsAreSymbol(inp, n, more, m);
    name := inp[..m];
  }

  lemma BehindBrackets(inp: string, e: nat, mid: string)
    requires e < |inp| && mid == inp[e..]
    ensures mid[0] == inp[e] && mid[1..] == inp[e + 1..]
    ensures |mid| > 1 ==> mid[1] == inp[e + 1] && mid[2..] == inp[e + 2..]
  {
  }

  lemma Slices(inp: string, n: nat, k: nat)
    requires n + 1 + k <= |inp|
    ensures inp[n..][1..][..k] == inp[n + 1..n + 1 + k] && inp[n..][1..][k..] == inp[n + 1 + k..]
  {
  }

  lemma BracketsAreSymbol(inp: string, n: nat, name: string, m: nat)
    requires 0 < n == RunOf(inp) && n + 1 + |name| < m <= |inp| && inp[n] == '[' && inp[n + 1 + |name|] == ']'
    requires inp[n + 1..n + 1 + |name|] == name && IsSymbol(name)
    requires m == n + 2 + |name| || (m == n + 3 + |name| && inp[m - 1] == '!')
    ensures IsSymbol(inp[..m])
  {
    RunOfPrefix(inp, m);
    SymbolWithBrackets(inp[..m], n, name);
  }

  lemma SymbolWithBrackets(s: string, n: nat, name: string)
    requires 0 < n == RunOf(s) && n + 1 + |name| < |s| && BracketEnd(s) == n + 1 + |name|
    requires s[n] == '[' && s[n + 1..n + 1 + |name|] == name && s[n + 1 + |name|] == ']' && IsSymbol(name)
    ensures IsSymbol(s)
  {
    assert |name| > 0;
  }

  lemma ParsedSymbolIsShaped(inp: string)
    requires ParseSymbol(inp).Done?
    ensures Shaped(ParseSymbol(inp).value) && ParseSymbol(inp).value.Symbol?
  {
    var name := TakenIsSymbol(inp);
    assert inp[..|inp| - |AfterSymbol(inp).value|] == name;
  }

  lemma {:induction false} NoQuoteBefore(inp: string)
    ensures '\"' !in inp[..QuoteAt(inp)]
  {
    if inp != "" && inp[0] != '\"' {
      NoQuoteBefore(inp[1..]);
      assert inp[..QuoteAt(inp)] == [inp[0]] + inp[1..][..QuoteAt(inp[1..])];
    }
  }

  lemma ParsedStringIsShaped(inp: string)
    requires ParseString(inp).Done?
    ensures Shaped(ParseString(inp).value) && ParseString(inp).value.Quoted?
  {
    NoQuoteBefore(inp[1..]);
  }

  lemma {:induction false} InjectKeepsShape(s: Sexp, d: ServiceDefinition)
    requires Shaped(s) && Inject(s, d).Some?
    ensures Shaped(Inject(s, d).value)
    decreases s
  {
    if s.List? && s.items != [] {
      InjectKeepsShape(s.items[|s.items| - 1], d);
    }
  }

  lemma {:induction false} ParsedIsShaped(inp: string)
    requires ParseSexp(inp).Done?
    ensures Shaped(ParseSexp(inp).value)
    decreases |inp|, 4
  {
    if ParseCall(inp).Done? {
      ParsedCallIsShaped(Head("call ", inp).value);
    } else if ParseCanon(inp).Done? {
      ParsedCanonIsShaped(Head("canon ", inp).value);
    } else if ParseList(inp).Done? {
      ParsedListIsShaped(inp);
    } else if ParseString(inp).Done? {
      ParsedStringIsShaped(inp);
    } else {
      ParsedSymbolIsShaped(inp);
    }
  }

  lemma {:induction false} ParsedCallIsShaped(inp: string)
    requires ParseCallContent(inp).Done?
    ensures Shaped(ParseCallContent(inp).value)
    decreases |inp|, 6
  {
    ParsedIsShaped(inp);
    var r2 := Tag("(", Space0(Space0(ParseSexp(inp).rest))).value;
    var service := ParseString(Space0(r2));
    ParsedStringIsShaped(Space0(r2));
    ParsedIsShaped(Space0(service.rest));
    var func := ParseSexp(Space0(service.rest));
    var r5 := Tag(")", Space0(func.rest)).value;
    ParsedEndIsShaped(ParseSexp(inp).value, service.value, func.value, Space0(r5));
  }

  lemma {:induction false} ParsedEndIsShaped(peer: Sexp, service: Sexp, func: Sexp, inp: string)
    requires Shaped(peer) && Shaped(service) && service.Quoted? && Shaped(func)
    requires ParseCallEnd(peer, service, func, inp).Done?
    ensures Shaped(ParseCallEnd(peer, service, func, inp).value)
    decreases |inp|, 6
  {
    var r1 := Tag("[", inp).value;
    ParsedItemsAreShaped(r1, false);
    var r3 := Tag("]", ParseItems(r1, false).rest).value;
    var output := ParseOutput(r3).0;
    if output.Some? {
      ParsedSymbolIsShaped(Space1(r3).value);
    }
  }

  lemma {:induction false} ParsedCanonIsShaped(inp: string)
    requires ParseCanonContent(inp).Done?
    ensures Shaped(ParseCanonContent(inp).value)
    decreases |inp|, 6
  {
    ParsedIsShaped(inp);
    var r2 := Space1(ParseSexp(inp).rest).value;
    ParsedSymbolIsShaped(r2);
    ParsedSymbolIsShaped(Space1(ParseSymbol(r2).rest).value);
  }

  lemma {:induction false} ParsedListIsShaped(inp: string)
    requires ParseList(inp).Done?
    ensures Shaped(ParseList(inp).value)
    decreases |inp|, 3
  {
    var content := Space0(Tag("(", inp).value);
    ParsedItemsAreShaped(content, true);
    var parsed := ParseListContent(content).value;
    if parsed.1.Some? {
      InjectKeepsShape(parsed.0, parsed.1.value);
    }
  }

  lemma {:induction false} ParsedItemsAreShaped(inp: string, comments: bool)
    requires ParseItems(inp, comments).Done?
    ensures forall x | x in ParseItems(inp, comments).value :: Shaped(x)
    decreases |inp|, 5
  {
    if ParseSexp(inp).Done? {
      ParsedIsShaped(inp);
      ParsedMoreAreShaped(ParseSexp(inp).rest, comments);
    }
  }

  lemma {:induction false} ParsedMoreAreShaped(inp: string, comments: bool)
    requires ParseMore(inp, comments).Done?
    ensures forall x | x in ParseMore(inp, comments).value :: Shaped(x)
    decreases |inp|, 5
  {
    var next := Separator(inp, comments);
    if next.Some? && ParseSexp(next.value).Done? {
      ParsedIsShaped(next.value);
      ParsedMoreAreShaped(ParseSexp(next.value).rest, comments);
    }
  }

  // ---- without definitions ----

  /** The script without what its annotations say, which is all that is printed of it. */
  function Erase(s: Sexp): Sexp
    decreases s
  {
    match s
    case Call(peer, service, func, args, output, _) =>
      Call(Erase(peer), Erase(service), Erase(func), EraseAll(args), (match output case None => None case Some(v) => Some(Erase(v))), None)
    case Canon(peer, stream, target) => Canon(Erase(peer), Erase(stream), Erase(target))
    case List(items) => List(EraseAll(items))
    case _ => s
  }

  function EraseAll(items: seq<Sexp>): (r: seq<Sexp>)
    ensures |r| == |items| && forall i | 0 <= i < |items| :: r[i] == Erase(items[i])
    decreases items
  {
    if items == [] then [] else [Erase(items[0])] + EraseAll(items[1..])
  }

  lemma {:induction false} ErasedPrint(s: Sexp, rest: string)
    ensures PrintTo(Erase(s), rest) == PrintTo(s, rest)
    decreases s
  {
    match s {
      case Call(peer, service, func, args, output, _) =>
        var end := ")" + rest;
        if output.Some? {
          ErasedPrint(output.value, end);
        }
        ErasedAll(args, "]" + OutputTo(output, end));
        var r3 := ")" + (" " + ("[" + AllTo(args, "]" + OutputTo(output, end))));
        ErasedPrint(func, r3);
        ErasedPrint(service, " " + PrintTo(func, r3));
        ErasedPrint(peer, " " + ("(" + PrintTo(service, " " + PrintTo(func, r3))));
      case Canon(peer, stream, target) =>
        ErasedPrint(target, ")" + rest);
        ErasedPrint(stream, " " + PrintTo(target, ")" + rest));
        ErasedPrint(peer, " " + PrintTo(stream, " " + PrintTo(target, ")" + rest)));
      case List(items) => ErasedAll(items, ")" + rest);
      case Symbol(_) =>
      case Quoted(_) =>
    }
  }

  lemma {:induction false} ErasedAll(items: seq<Sexp>, rest: string)
    ensures AllTo(EraseAll(items), rest) == AllTo(items, rest)
    decreases items
  {
    if items != [] {
      ErasedMore(items[1..], rest);
      ErasedPrint(items[0], MoreTo(items[1..], rest));
      assert EraseAll(items)[1..] == EraseAll(items[1..]);
    }
  }

  lemma {:induction false} ErasedMore(items: seq<Sexp>, rest: string)
    ensures MoreTo(EraseAll(items), rest) == MoreTo(items, rest)
    decreases items
  {
    if items != [] {
      ErasedMore(items[1..], rest);
      ErasedPrint(items[0], MoreTo(items[1..], rest));
      assert EraseAll(items)[1..] == EraseAll(items[1..]);
    }
  }

  lemma SameErased(xs: seq<Sexp>, ys: seq<Sexp>)
    requires |xs| == |ys| && forall i | 0 <= i < |xs| :: Erase(xs[i]) == Erase(ys[i])
    ensures EraseAll(xs) == EraseAll(ys)
  {
    assert forall i | 0 <= i < |xs| :: EraseAll(xs)[i] == EraseAll(ys)[i];
  }

  lemma {:induction false} ErasedInjection(s: Sexp, d: ServiceDefinition)
    requires Inject(s, d).Some?
    ensures Erase(Inject(s, d).value) == Erase(s)
    decreases s
  {
    if s.List? {
      var n := |s.items| - 1;
      ErasedInjection(s.items[n], d);
      SameErased(Inject(s, d).value.items, s.items);
    }
  }

  // ---- what survives is well-formed ----

  lemma {:induction false} Survives(s: Sexp, rest: string)
    requires Shaped(s) && Delimited(rest) && !StartsAnnotation(rest)
    requires ParseSexp(PrintTo(s, rest)).Done? && Erase(ParseSexp(PrintTo(s, rest)).value) == Erase(s)
    ensures WellFormed(Erase(s)) && ParseSexp(PrintTo(s, rest)) == Done(Erase(s), rest)
    decreases s, 1
  {
    match s {
      case Call(_, _, _, _, _, _) => CallSurvives(s, rest);
      case Canon(_, _, _) => CanonSurvives(s, rest);
      case List(_) => ListSurvives(s, rest);
      case Symbol(_) =>
      case Quoted(_) =>
    }
    ErasedPrint(s, rest);
    RoundTrip(Erase(s), rest);
  }

  lemma ListIsRead(inp: string)
    requires Clear(inp) && ParseSexp("(" + inp).Done? && ParseSexp("(" + inp).value.List?
    ensures ParseItems(inp, true).Done?
    ensures Erase(ParseSexp("(" + inp).value) == List(EraseAll(ParseItems(inp, true).value))
  {
    OneSpace(inp);
    assert ("(" + inp)[1..] == inp;
    var r := ParseList("(" + inp);
    assert r.Done? && r == ParseSexp("(" + inp);
    var content := ParseListContent(inp).value;
    assert content.0 == List(ParseItems(inp, true).value);
    if content.1.Some? {
      ErasedInjection(content.0, content.1.value);
    }
  }

  lemma {:induction false} ListSurvives(s: Sexp, rest: string)
    requires s.List? && Shaped(s)
    requires ParseSexp(PrintTo(s, rest)).Done? && Erase(ParseSexp(PrintTo(s, rest)).value) == Erase(s)
    ensures WellFormed(Erase(s))
    decreases s, 0
  {
    var inp := AllTo(s.items, ")" + rest);
    TheyBeginToo(s.items);
    AllClear(s.items, ")" + rest);
    ListIsRead(inp);
    AllSurvive(s.items, ")" + rest, true);
    if Misleading(s.items) {
      MisleadingListIsLost(s.items, rest);
      PrintToIsPrint(s, rest);
    }
  }

  lemma TheyBeginToo(items: seq<Sexp>)
    requires forall x | x in items :: Shaped(x)
    ensures forall x | x in items :: Begins(x)
  {
  }

  lemma {:induction false} AllSurvive(items: seq<Sexp>, rest: string, comments: bool)
    requires (forall x | x in items :: Shaped(x)) && rest != "" && (rest[0] == ')' || rest[0] == ']')
    requires ParseItems(AllTo(items, rest), comments).Done?
    requires EraseAll(ParseItems(AllTo(items, rest), comments).value) == EraseAll(items)
    ensures forall x | x in EraseAll(items) :: WellFormed(x)
    decreases items
  {
    if items != [] {
      var tail := MoreTo(items[1..], rest);
      var read := ParseItems(AllTo(items, rest), comments).value;
      var first := ParseSexp(PrintTo(items[0], tail));
      TheyBeginToo(items);
      MoreIsNoAnnotation(items[1..], rest);
      assert EraseAll(read)[0] == EraseAll(items)[0];
      assert first.Done? && first.value == read[0];
      Survives(items[0], tail);
      assert ParseMore(tail, comments).Done? && ParseMore(tail, comments).value == read[1..];
      assert EraseAll(read[1..]) == EraseAll(read)[1..] == EraseAll(items)[1..] == EraseAll(items[1..]);
      MoreSurvive(items[1..], rest, comments);
    }
  }

  lemma MoreIsRead(next: string, comments: bool)
    requires Clear(next) && ParseMore(" " + next, comments).Done? && ParseMore(" " + next, comments).value != []
    ensures ParseSexp(next).Done? && ParseMore(ParseSexp(next).rest, comments).Done?
    ensures var read := ParseMore(" " + next, comments).value;
      ParseSexp(next).value == read[0] && ParseMore(ParseSexp(next).rest, comments).value == read[1..]
  {
    OneSpace(next);
  }

  lemma {:induction false} MoreSurvive(items: seq<Sexp>, rest: string, comments: bool)
    requires (forall x | x in items :: Shaped(x)) && rest != "" && (rest[0] == ')' || rest[0] == ']')
    requires ParseMore(MoreTo(items, rest), comments).Done?
    requires EraseAll(ParseMore(MoreTo(items, rest), comments).value) == EraseAll(items)
    ensures forall x | x in EraseAll(items) :: WellFormed(x)
    decreases items
  {
    if items != [] {
      var tail := MoreTo(items[1..], rest);
      var next := PrintTo(items[0], tail);
      assert MoreTo(items, rest) == " " + next;
      var read := ParseMore(" " + next, comments).value;
      TheyBeginToo(items);
      PrintOpens(items[0], tail);
      MoreIsNoAnnotation(items[1..], rest);
      assert EraseAll(read)[0] == EraseAll(items)[0];
      MoreIsRead(next, comments);
      Survives(items[0], tail);
      assert EraseAll(read[1..]) == EraseAll(read)[1..] == EraseAll(items)[1..] == EraseAll(items[1..]);
      MoreSurvive(items[1..], rest, comments);
    }
  }

  lemma CanonIsRead(inp: string)
    requires ParseSexp("(" + ("canon " + inp)).Done? && ParseSexp("(" + ("canon " + inp)).value.Canon?
    ensures ParseCanonContent(inp) == ParseSexp("(" + ("canon " + inp))
    ensures ParseSexp(inp).Done? && ParseSexp(inp).value == ParseCanonContent(inp).value.peer
  {
    HeadInFront("canon ", inp);
    NotTheOther(inp);
  }

  lemma {:induction false} CanonSurvives(s: Sexp, rest: string)
    requires s.Canon? && Shaped(s)
    requires ParseSexp(PrintTo(s, rest)).Done? && Erase(ParseSexp(PrintTo(s, rest)).value) == Erase(s)
    ensures WellFormed(Erase(s))
    decreases s, 0
  {
    var b := PrintTo(s.target, ")" + rest);
    var a := PrintTo(s.stream, " " + b);
    CanonIsRead(PrintTo(s.peer, " " + a));
    NotAnAnnotation(s.stream, " " + b);
    Survives(s.peer, " " + a);
  }

  lemma CallIsRead(inp: string)
    requires ParseSexp("(" + ("call " + inp)).Done?
    ensures ParseCallContent(inp) == ParseSexp("(" + ("call " + inp))
    ensures ParseSexp(inp).Done? && ParseSexp(inp).value == ParseCallContent(inp).value.peer
  {
    HeadInFront("call ", inp);
  }

  lemma FunctionIsRead(inp: string, a: string, service: Sexp, b: string)
    requires ParseCallContent(inp).Done? && ParseSexp(inp).Done? && ParseSexp(inp).rest == " " + ("(" + a)
    requires Clear(a) && ParseString(a) == Done(service, " " + b) && Clear(b)
    ensures ParseSexp(b).Done?
    ensures var r := Tag(")", Space0(ParseSexp(b).rest));
      r.Some? && ParseCallContent(inp) == ParseCallEnd(ParseSexp(inp).value, service, ParseSexp(b).value, Space0(r.value))
  {
    SpaceAndParenthesis(a);
    OneSpace(b);
  }

  lemma EndKeepsFunction(peer: Sexp, service: Sexp, func: Sexp, inp: string)
    requires ParseCallEnd(peer, service, func, inp).Done?
    ensures ParseCallEnd(peer, service, func, inp).value.func == func
  {
  }

  lemma ArgumentsAreRead(peer: Sexp, service: Sexp, func: Sexp, args: string)
    requires ParseCallEnd(peer, service, func, "[" + args).Done?
    ensures ParseItems(args, false).Done?
    ensures ParseItems(args, false).value == ParseCallEnd(peer, service, func, "[" + args).value.args
  {
    assert ("[" + args)[1..] == args;
  }

  lemma {:induction false} CallSurvives(s: Sexp, rest: string)
    requires s.Call? && Shaped(s)
    requires ParseSexp(PrintTo(s, rest)).Done? && Erase(ParseSexp(PrintTo(s, rest)).value) == Erase(s)
    ensures WellFormed(Erase(s))
    decreases s, 0
  {
    var args := AllTo(s.args, "]" + OutputTo(s.output, ")" + rest));
    var b := PrintTo(s.func, ")" + (" " + ("[" + args)));
    var a := PrintTo(s.service, " " + b);
    var inp := PrintTo(s.peer, " " + ("(" + a));
    CallIsRead(inp);
    var read := ParseCallContent(inp).value;
    assert Erase(read) == Erase(s);
    PrintOpens(s.service, " " + b);
    SpaceAndParenthesis(a);
    Survives(s.peer, " " + ("(" + a));
    StringInFront(s.service.text, " " + b);
    PrintOpens(s.func, ")" + (" " + ("[" + args)));
    FunctionIsRead(inp, a, s.service, b);
    ParenthesisAndSpace("[" + args);
    EndKeepsFunction(read.peer, s.service, ParseSexp(b).value, Space0(Tag(")", Space0(ParseSexp(b).rest)).value));
    Survives(s.func, ")" + (" " + ("[" + args)));
    ArgumentsAreRead(read.peer, s.service, read.func, args);
    AllSurvive(s.args, "]" + OutputTo(s.output, ")" + rest), false);
  }

  /**
   * A script is read back from its printed form if and only if it is well-formed: it has
   * no definitions, its symbols and strings obey the grammar, and no list of two or more
   * items in it is headed by the symbol `call` or `canon`.
   */
  lemma ReadBackExactly(s: Sexp)
    ensures FromStr(Print(s)) == Some(s) <==> WellFormed(s)
  {
    if WellFormed(s) {
      ParseUndoesPrint(s);
    } else if FromStr(Print(s)) == Some(s) {
      var inp := Print(s);
      PrintToIsPrint(s, "");
      assert inp == PrintTo(s, "");
      ParsedIsShaped(Space0(inp));
      PrintOpens(s, "");
      OneSpace(inp);
      Survives(s, "");
      assert false;
    }
  }

  /** What annotations say is lost in printing, and what is read back without them is known exactly too. */
  lemma DefinitionsAreLost(s: Sexp)
    ensures FromStr(Print(s)) == Some(Erase(s)) <==> WellFormed(Erase(s))
  {
    ErasedPrint(s, "");
    PrintToIsPrint(s, "");
    PrintToIsPrint(Erase(s), "");
    assert Print(s) + "" == Print(s) && Print(Erase(s)) + "" == Print(Erase(s));
    ReadBackExactly(Erase(s));
  }
}
