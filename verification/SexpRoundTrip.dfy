/**
 * Parsing undoes printing. A script that contains no annotations, and no list that
 * looks like a call or a canon without being one, is read back from its printed form,
 * whatever follows it in the input, as long as that starts with a delimiter and not
 * with an annotation.
 */
module SexpRoundTrip {
  import opened Wrappers
  import opened Sexps
  import opened SexpParser

  // ---- printing in front of a rest ----

  function PrintTo(s: Sexp, rest: string): string
    decreases s
  {
    match s
    case Call(peer, service, func, args, output, _) =>
      var end := ")" + (" " + ("[" + AllTo(args, "]" + OutputTo(output, ")" + rest))));
      "(" + ("call " + PrintTo(peer, " " + ("(" + PrintTo(service, " " + PrintTo(func, end)))))
    case Canon(peer, stream, target) =>
      "(" + ("canon " + PrintTo(peer, " " + PrintTo(stream, " " + PrintTo(target, ")" + rest))))
    case List(items) => "(" + AllTo(items, ")" + rest)
    case Symbol(name) => name + rest
    case Quoted(text) => "\"" + (text + ("\"" + rest))
  }

  function OutputTo(output: Option<Sexp>, rest: string): string
    decreases output
  {
    match output
    case None => rest
    case Some(v) => " " + PrintTo(v, rest)
  }

  function AllTo(items: seq<Sexp>, rest: string): string
    decreases items
  {
    if items == [] then rest else PrintTo(items[0], MoreTo(items[1..], rest))
  }

  function MoreTo(items: seq<Sexp>, rest: string): string
    decreases items
  {
    if items == [] then rest else " " + PrintTo(items[0], MoreTo(items[1..], rest))
  }

  lemma {:induction false} PrintToIsPrint(s: Sexp, rest: string)
    ensures PrintTo(s, rest) == Print(s) + rest
    decreases s, 1
  {
    match s {
      case Call(_, _, _, _, _, _) => CallToIsPrint(s, rest);
      case Canon(_, _, _) => CanonToIsPrint(s, rest);
      case List(items) => AllToIsPrint(items, ")" + rest);
      case Symbol(_) =>
      case Quoted(_) =>
    }
  }

  function OutputText(output: Option<Sexp>): string {
    match output case None => "" case Some(v) => " " + Print(v)
  }

  lemma {:induction false} CallToIsPrint(s: Sexp, rest: string)
    requires s.Call?
    ensures PrintTo(s, rest) == Print(s) + rest
    decreases s, 0
  {
    var r5 := ")" + rest;
    var r4 := "]" + OutputTo(s.output, r5);
    var r3 := ")" + (" " + ("[" + AllTo(s.args, r4)));
    var r2 := " " + PrintTo(s.func, r3);
    var r1 := " " + ("(" + PrintTo(s.service, r2));
    PrintToIsPrint(s.peer, r1);
    PrintToIsPrint(s.service, r2);
    PrintToIsPrint(s.func, r3);
    AllToIsPrint(s.args, r4);
    if s.output.Some? {
      PrintToIsPrint(s.output.value, r5);
    }
    assert OutputTo(s.output, r5) == OutputText(s.output) + r5;
    CallText(Print(s.peer), Print(s.service), Print(s.func), PrintAll(s.args), OutputText(s.output), rest);
  }

  lemma {:induction false} CanonToIsPrint(s: Sexp, rest: string)
    requires s.Canon?
    ensures PrintTo(s, rest) == Print(s) + rest
    decreases s, 0
  {
    var r3 := ")" + rest;
    var r2 := " " + PrintTo(s.target, r3);
    var r1 := " " + PrintTo(s.stream, r2);
    PrintToIsPrint(s.peer, r1);
    PrintToIsPrint(s.stream, r2);
    PrintToIsPrint(s.target, r3);
    CanonText(Print(s.peer), Print(s.stream), Print(s.target), rest);
  }

  lemma CanonText(peer: string, stream: string, target: string, rest: string)
    ensures "(" + ("canon " + (peer + (" " + (stream + (" " + (target + (")" + rest)))))))
         == ("(canon " + peer + " " + stream + " " + target + ")") + rest
  {
  }

  lemma CallText(peer: string, service: string, func: string, args: string, output: string, rest: string)
    ensures "(" + ("call " + (peer + (" " + ("(" + (service + (" " + (func + (")" + (" " + ("[" + (args + ("]" + (output + (")" + rest))))))))))))))
         == ("(call " + peer + " (" + service + " " + func + ") [" + args + "]" + output + ")") + rest
  {
  }

  lemma {:induction false} AllToIsPrint(items: seq<Sexp>, rest: string)
    ensures AllTo(items, rest) == PrintAll(items) + rest
    decreases items
  {
    if items != [] {
      PrintToIsPrint(items[0], MoreTo(items[1..], rest));
      MoreToIsPrint(items[1..], rest);
    }
  }

  lemma {:induction false} MoreToIsPrint(items: seq<Sexp>, rest: string)
    ensures MoreTo(items, rest) == PrintMore(items) + rest
    decreases items
  {
    if items != [] {
      PrintToIsPrint(items[0], MoreTo(items[1..], rest));
      MoreToIsPrint(items[1..], rest);
    }
  }

  // ---- spaces, symbols and strings ----

  /** What can follow a printed expression. */
  predicate Delimited(rest: string) {
    rest == "" || IsSpace(rest[0]) || rest[0] == ')' || rest[0] == ']'
  }

  /** Neither white space nor a comment. */
  predicate Clear(inp: string) {
    inp == "" || (!IsSpace(inp[0]) && inp[0] != ';')
  }

  lemma OneSpace(inp: string)
    requires Clear(inp)
    ensures Space0(inp) == inp && Space0(" " + inp) == inp
    ensures Space1(inp) == None && Space1(" " + inp) == Some(inp)
    ensures Blank1(inp) == None && Blank1(" " + inp) == Some(inp)
  {
    var more := " " + inp;
    assert more[1..] == inp;
    assert SkipSpaces(more) == inp;
  }

  lemma {:induction false} RunInFront(s: string, rest: string)
    requires RunOf(s) < |s| || rest == "" || !IsSymbolChar(rest[0])
    ensures RunOf(s + rest) == RunOf(s)
  {
    if s == "" {
      assert s + rest == rest;
    } else if IsSymbolChar(s[0]) {
      assert (s + rest)[1..] == s[1..] + rest;
      RunInFront(s[1..], rest);
    }
  }

  lemma {:induction false} RunIsSymbolChars(s: string, k: nat)
    requires k <= RunOf(s)
    ensures k < RunOf(s) ==> IsSymbolChar(s[k])
    ensures k == RunOf(s) < |s| ==> !IsSymbolChar(s[k])
  {
    if k > 0 {
      RunIsSymbolChars(s[1..], k - 1);
    }
  }

  lemma BracketsInFront(s: string, n: nat, rest: string)
    requires n < |s| && s[n] == '[' && BracketEnd(s) > n && s[BracketEnd(s)] == ']' && Delimited(rest)
    requires AfterSymbol(s[n + 1..BracketEnd(s)] + (s[BracketEnd(s)..] + rest)) == Some(s[BracketEnd(s)..] + rest)
    ensures AfterBrackets((s + rest)[n..]) == Some(rest)
  {
    var e, inp := BracketEnd(s), s + rest;
    var tail := s[e..] + rest;
    assert inp[n..][1..] == s[n + 1..e] + tail;
    if e == |s| - 1 {
      assert tail[1..] == rest;
    } else {
      assert tail[2..] == rest;
    }
  }

  /** A symbol ends where something else than a symbol character or a bracket begins. */
  lemma {:induction false} SymbolInFront(s: string, rest: string)
    requires IsSymbol(s) && (Delimited(rest))
    ensures AfterSymbol(s + rest) == Some(rest)
    decreases |s|
  {
    var n := RunOf(s);
    var inp := s + rest;
    RunInFront(s, rest);
    if n == |s| {
      assert inp[n..] == rest;
    } else {
      var e := BracketEnd(s);
      var inner, tail := s[n + 1..e], s[e..] + rest;
      SymbolInFront(inner, tail);
      BracketsInFront(s, n, rest);
    }
  }

  lemma {:induction false} SymbolHasNoSpace(s: string, k: nat)
    requires IsSymbol(s) && k < |s|
    ensures !IsSpace(s[k]) && s[k] != ')' && s[k] != '(' && s[k] != '\"' && s[k] != ';' && s[k] != '|'
    decreases |s|
  {
    var n := RunOf(s);
    if k < n {
      RunIsSymbolChars(s, k);
    } else {
      var e := BracketEnd(s);
      if n < k < e {
        assert s[n + 1..e][k - n - 1] == s[k];
        SymbolHasNoSpace(s[n + 1..e], k - n - 1);
      }
    }
  }

  lemma {:induction false} QuoteInFront(text: string, rest: string)
    requires '\"' !in text
    ensures QuoteAt(text + ("\"" + rest)) == |text|
  {
    if text == "" {
      assert text + ("\"" + rest) == "\"" + rest;
    } else {
      assert (text + ("\"" + rest))[1..] == text[1..] + ("\"" + rest);
      QuoteInFront(text[1..], rest);
    }
  }

  lemma StringInFront(text: string, rest: string)
    requires '\"' !in text
    ensures ParseString("\"" + (text + ("\"" + rest))) == Done(Quoted(text), rest)
  {
    var inp := "\"" + (text + ("\"" + rest));
    assert inp[1..] == text + ("\"" + rest);
    QuoteInFront(text, rest);
    assert inp[1..][..|text|] == text && inp[1..][|text| + 1..] == rest;
  }

  // ---- how a printed expression begins ----

  predicate Opens(inp: string) {
    inp != "" && (inp[0] == '(' || inp[0] == '\"' || IsSymbolChar(inp[0]))
  }

  /** A symbol at the top is one of the grammar. */
  predicate Begins(s: Sexp) {
    s.Symbol? ==> IsSymbol(s.name)
  }

  lemma PrintOpens(s: Sexp, rest: string)
    requires Begins(s)
    ensures Opens(PrintTo(s, rest)) && Clear(PrintTo(s, rest))
    ensures s.Symbol? ==> IsSymbolChar(PrintTo(s, rest)[0])
    ensures s.Quoted? ==> PrintTo(s, rest)[0] == '\"'
    ensures !s.Symbol? && !s.Quoted? ==> PrintTo(s, rest)[0] == '('
  {
    if s.Symbol? {
      RunIsSymbolChars(s.name, 0);
    }
  }

  lemma AllClear(items: seq<Sexp>, rest: string)
    requires (forall x | x in items :: Begins(x)) && rest != "" && (rest[0] == ')' || rest[0] == ']')
    ensures Clear(AllTo(items, rest))
  {
    if items != [] {
      PrintOpens(items[0], MoreTo(items[1..], rest));
    }
  }

  lemma MoreDelimited(items: seq<Sexp>, rest: string)
    requires rest != "" && (rest[0] == ')' || rest[0] == ']')
    ensures MoreTo(items, rest) != ""
    ensures items != [] ==> MoreTo(items, rest)[0] == ' '
    ensures items == [] ==> MoreTo(items, rest)[0] == rest[0]
  {
  }

  lemma KeywordMatches(word: string, name: string, tail: string)
    requires (word == "call" || word == "canon") && IsSymbol(name) && tail != "" && (tail[0] == ' ' || tail[0] == ')')
    requires word + " " <= name + tail
    ensures name == word && tail[0] == ' '
  {
    var inp := name + tail;
    assert inp[..|word|] == word && inp[|word|] == ' ' && inp[|name|] == tail[0];
    assert forall k | 0 <= k < |word| :: word[k] != ' ' && word[k] != ')' && inp[k] == word[k];
    assert |name| >= |word|;
    if |name| > |word| {
      SymbolHasNoSpace(name, |word|);
    } else {
      assert inp[..|name|] == name;
    }
  }

  /** A list is taken for a call or a canon only if it begins with that word and a space. */
  lemma NotAKeyword(word: string, items: seq<Sexp>, rest: string)
    requires word == "call" || word == "canon"
    requires (forall x | x in items :: Begins(x)) && !Misleading(items)
    ensures !(word + " " <= AllTo(items, ")" + rest))
  {
    var inp := AllTo(items, ")" + rest);
    assert (word + " ")[0] == 'c';
    if items != [] {
      var tail := MoreTo(items[1..], ")" + rest);
      MoreDelimited(items[1..], ")" + rest);
      PrintOpens(items[0], tail);
      if items[0].Symbol? && word + " " <= inp {
        KeywordMatches(word, items[0].name, tail);
      }
    }
  }

  /** What is printed behind an item is no annotation of it. */
  lemma NotAnAnnotation(s: Sexp, rest: string)
    requires Begins(s) && (rest == "" || rest[0] == ' ' || rest[0] == ')' || rest[0] == ']')
    ensures !StartsAnnotation(" " + PrintTo(s, rest))
  {
    var inp := PrintTo(s, rest);
    PrintOpens(s, rest);
    assert (" " + inp)[1..] == inp;
    assert SkipBlanks(" " + inp) == inp;
    if s.Symbol? && |inp| > 1 {
      if |s.name| > 1 {
        SymbolHasNoSpace(s.name, 1);
        assert inp[1] == s.name[1];
      } else {
        assert inp[1] == rest[0];
      }
    }
  }

  lemma MoreIsNoAnnotation(items: seq<Sexp>, rest: string)
    requires (forall x | x in items :: Begins(x)) && rest != "" && (rest[0] == ')' || rest[0] == ']')
    ensures Delimited(MoreTo(items, rest)) && !StartsAnnotation(MoreTo(items, rest))
  {
    if items != [] {
      MoreDelimited(items[1..], rest);
      NotAnAnnotation(items[0], MoreTo(items[1..], rest));
    }
  }

  // ---- which alternative is taken ----

  lemma NoList(inp: string)
    requires Clear(inp) && (inp == "" || inp[0] != '(')
    ensures ParseCall(inp).Miss? && ParseCanon(inp).Miss? && ParseList(inp).Miss?
  {
    OneSpace(inp);
  }

  lemma NothingToParse(rest: string)
    requires rest != "" && (rest[0] == ')' || rest[0] == ']')
    ensures ParseSexp(rest).Miss?
  {
    NoList(rest);
  }

  lemma SymbolRoundTrip(name: string, rest: string)
    requires IsSymbol(name) && Delimited(rest)
    ensures ParseSexp(name + rest) == Done(Symbol(name), rest)
    ensures ParseSymbol(name + rest) == Done(Symbol(name), rest)
  {
    var inp := name + rest;
    SymbolInFront(name, rest);
    RunIsSymbolChars(name, 0);
    assert inp[0] == name[0];
    NoList(inp);
    assert inp[..|inp| - |rest|] == name;
  }

  lemma StringRoundTrip(text: string, rest: string)
    requires '\"' !in text
    ensures ParseSexp(PrintTo(Quoted(text), rest)) == Done(Quoted(text), rest)
  {
    NoList(PrintTo(Quoted(text), rest));
    StringInFront(text, rest);
  }

  lemma HeadInFront(word: string, inp: string)
    requires Clear(word) && word != ""
    ensures Head(word, "(" + (word + inp)) == Some(inp)
  {
    var rest := word + inp;
    assert ("(" + rest)[1..] == rest;
    assert rest[0] == word[0];
    OneSpace(rest);
    assert rest[|word|..] == inp;
  }

  lemma NoHead(word: string, inp: string)
    requires Clear(inp) && !(word <= inp)
    ensures Head(word, "(" + inp) == None
  {
    assert ("(" + inp)[1..] == inp;
    OneSpace(inp);
  }

  // ---- the round trip ----

  lemma {:induction false} RoundTrip(s: Sexp, rest: string)
    requires WellFormed(s) && Delimited(rest) && !StartsAnnotation(rest)
    ensures ParseSexp(PrintTo(s, rest)) == Done(s, rest)
    decreases s, 1
  {
    match s {
      case Call(_, _, _, _, _, _) => CallRoundTrip(s, rest);
      case Canon(_, _, _) => CanonRoundTrip(s, rest);
      case List(_) => ListRoundTrip(s, rest);
      case Symbol(name) => SymbolRoundTrip(name, rest);
      case Quoted(text) => StringRoundTrip(text, rest);
    }
  }

  lemma TheyBegin(items: seq<Sexp>)
    requires forall x | x in items :: WellFormed(x)
    ensures forall x | x in items :: Begins(x)
  {
  }

  lemma {:induction false} AllRoundTrip(items: seq<Sexp>, rest: string, comments: bool)
    requires forall x | x in items :: WellFormed(x)
    requires rest != "" && (rest[0] == ')' || rest[0] == ']')
    ensures ParseItems(AllTo(items, rest), comments) == Done(items, rest)
    decreases items
  {
    if items == [] {
      NothingToParse(rest);
    } else {
      TheyBegin(items);
      MoreIsNoAnnotation(items[1..], rest);
      RoundTrip(items[0], MoreTo(items[1..], rest));
      MoreRoundTrip(items[1..], rest, comments);
      assert [items[0]] + items[1..] == items;
    }
  }

  lemma MoreStep(next: string, x: Sexp, rest: string, xs: seq<Sexp>, rest': string, comments: bool)
    requires Clear(next) && ParseSexp(next) == Done(x, rest) && ParseMore(rest, comments) == Done(xs, rest')
    ensures ParseMore(" " + next, comments) == Done([x] + xs, rest')
  {
    OneSpace(next);
  }

  lemma NoMore(rest: string, comments: bool)
    requires Clear(rest)
    ensures ParseMore(rest, comments) == Done([], rest)
  {
    OneSpace(rest);
  }

  lemma {:induction false} MoreRoundTrip(items: seq<Sexp>, rest: string, comments: bool)
    requires forall x | x in items :: WellFormed(x)
    requires rest != "" && (rest[0] == ')' || rest[0] == ']')
    ensures ParseMore(MoreTo(items, rest), comments) == Done(items, rest)
    decreases items
  {
    if items == [] {
      NoMore(rest, comments);
    } else {
      var tail := MoreTo(items[1..], rest);
      assert MoreTo(items, rest) == " " + PrintTo(items[0], tail);
      TheyBegin(items);
      MoreIsNoAnnotation(items[1..], rest);
      PrintOpens(items[0], tail);
      RoundTrip(items[0], tail);
      MoreRoundTrip(items[1..], rest, comments);
      MoreStep(PrintTo(items[0], tail), items[0], tail, items[1..], rest, comments);
      assert [items[0]] + items[1..] == items;
    }
  }

  lemma ListSteps(inp: string, items: seq<Sexp>, rest: string)
    requires Clear(inp) && !("call " <= inp) && !("canon " <= inp) && !StartsAnnotation(rest)
    requires ParseItems(inp, true) == Done(items, ")" + rest)
    ensures ParseSexp("(" + inp) == Done(List(items), rest)
  {
    NoHead("call ", inp);
    NoHead("canon ", inp);
    OneSpace(inp);
    OneSpace(")" + rest);
    assert ("(" + inp)[1..] == inp && (")" + rest)[1..] == rest;
    assert ParseListContent(inp) == Done((List(items), None), rest);
  }

  lemma {:induction false} ListRoundTrip(s: Sexp, rest: string)
    requires s.List? && WellFormed(s) && Delimited(rest) && !StartsAnnotation(rest)
    ensures ParseSexp(PrintTo(s, rest)) == Done(s, rest)
    decreases s, 0
  {
    var inp := AllTo(s.items, ")" + rest);
    AllClear(s.items, ")" + rest);
    NotAKeyword("call", s.items, rest);
    NotAKeyword("canon", s.items, rest);
    assert "call" + " " == "call " && "canon" + " " == "canon ";
    AllRoundTrip(s.items, ")" + rest, true);
    ListSteps(inp, s.items, rest);
  }

  lemma CanonSteps(inp: string, peer: Sexp, a: string, stream: Sexp, b: string, target: Sexp, rest: string)
    requires ParseSexp(inp) == Done(peer, " " + a)
    requires Clear(a) && ParseSymbol(a) == Done(stream, " " + b)
    requires Clear(b) && ParseSymbol(b) == Done(target, ")" + rest)
    ensures ParseCanonContent(inp) == Done(Canon(peer, stream, target), rest)
  {
    OneSpace(a);
    OneSpace(b);
    OneSpace(")" + rest);
    assert (")" + rest)[1..] == rest;
  }

  lemma SexpIsCanon(inp: string, s: Sexp, rest: string)
    requires ParseCanonContent(inp) == Done(s, rest)
    ensures ParseSexp("(" + ("canon " + inp)) == Done(s, rest)
  {
    HeadInFront("canon ", inp);
    NotTheOther(inp);
  }

  lemma {:induction false} CanonRoundTrip(s: Sexp, rest: string)
    requires s.Canon? && WellFormed(s) && Delimited(rest)
    ensures ParseSexp(PrintTo(s, rest)) == Done(s, rest)
    decreases s, 0
  {
    var b := PrintTo(s.target, ")" + rest);
    var a := PrintTo(s.stream, " " + b);
    var inp := PrintTo(s.peer, " " + a);
    NotAnAnnotation(s.stream, " " + b);
    RoundTrip(s.peer, " " + a);
    PrintOpens(s.stream, " " + b);
    SymbolRoundTrip(s.stream.name, " " + b);
    PrintOpens(s.target, ")" + rest);
    SymbolRoundTrip(s.target.name, ")" + rest);
    CanonSteps(inp, s.peer, a, s.stream, b, s.target, rest);
    SexpIsCanon(inp, s, rest);
  }

  lemma NotTheOther(inp: string)
    ensures Head("call ", "(" + ("canon " + inp)) == None
  {
    var rest := "canon " + inp;
    assert rest[0] == 'c' && rest[2] == 'n';
    assert !("call " <= rest) by { assert "call "[2] == 'l'; }
    NoHead("call ", rest);
  }

  lemma OutputRoundTrip(output: Option<Sexp>, rest: string)
    requires output.Some? ==> output.value.Symbol? && WellFormed(output.value)
    ensures ParseOutput(OutputTo(output, ")" + rest)) == (output, ")" + rest)
  {
    match output {
      case None => OneSpace(")" + rest);
      case Some(v) =>
        PrintOpens(v, ")" + rest);
        OneSpace(PrintTo(v, ")" + rest));
        SymbolRoundTrip(v.name, ")" + rest);
    }
  }

  lemma CallEndSteps(s: Sexp, args: string, end: string, rest: string)
    requires s.Call? && s.definition == None && !StartsAnnotation(rest)
    requires ParseItems(args, false) == Done(s.args, "]" + end) && ParseOutput(end) == (s.output, ")" + rest)
    ensures ParseCallEnd(s.peer, s.service, s.func, "[" + args) == Done(s, rest)
  {
    assert ("[" + args)[1..] == args && ("]" + end)[1..] == end && (")" + rest)[1..] == rest;
    OneSpace(")" + rest);
  }

  lemma {:induction false} CallEndRoundTrip(s: Sexp, rest: string)
    requires s.Call? && WellFormed(s) && !StartsAnnotation(rest)
    ensures ParseCallEnd(s.peer, s.service, s.func, "[" + AllTo(s.args, "]" + OutputTo(s.output, ")" + rest))) == Done(s, rest)
    decreases s, 0, 0
  {
    var end := OutputTo(s.output, ")" + rest);
    AllRoundTrip(s.args, "]" + end, false);
    OutputRoundTrip(s.output, rest);
    CallEndSteps(s, AllTo(s.args, "]" + end), end, rest);
  }

  /** A space and a parenthesis in front of something that is neither white space nor a comment. */
  lemma SpaceAndParenthesis(inp: string)
    requires Clear(inp)
    ensures Tag("(", Space0(Space0(" " + ("(" + inp)))) == Some(inp) && Space0(inp) == inp
    ensures Delimited(" " + ("(" + inp)) && !StartsAnnotation(" " + ("(" + inp))
  {
    var rest := "(" + inp;
    assert (" " + rest)[1..] == rest && rest[1..] == inp;
    OneSpace(rest);
    OneSpace(inp);
    assert SkipBlanks(rest) == rest;
  }

  lemma ParenthesisAndSpace(inp: string)
    requires inp != "" && inp[0] == '['
    ensures var rest := ")" + (" " + inp);
      && Tag(")", Space0(rest)).Some? && Space0(Tag(")", Space0(rest)).value) == inp
      && Delimited(rest) && !StartsAnnotation(rest)
  {
    var rest := ")" + (" " + inp);
    OneSpace(rest);
    OneSpace(inp);
    assert rest[1..] == " " + inp;
  }

  lemma CallSteps(inp: string, peer: Sexp, a: string, service: Sexp, b: string, func: Sexp, c: string, s: Sexp, rest: string)
    requires ParseSexp(inp) == Done(peer, " " + ("(" + a))
    requires Clear(a) && ParseString(a) == Done(service, " " + b)
    requires Clear(b) && ParseSexp(b) == Done(func, ")" + (" " + c))
    requires c != "" && c[0] == '[' && ParseCallEnd(peer, service, func, c) == Done(s, rest)
    ensures ParseCallContent(inp) == Done(s, rest)
  {
    SpaceAndParenthesis(a);
    OneSpace(b);
    ParenthesisAndSpace(c);
  }

  lemma SexpIsCall(inp: string, s: Sexp, rest: string)
    requires ParseCallContent(inp) == Done(s, rest)
    ensures ParseSexp("(" + ("call " + inp)) == Done(s, rest)
  {
    HeadInFront("call ", inp);
  }

  lemma {:induction false} CallRoundTrip(s: Sexp, rest: string)
    requires s.Call? && WellFormed(s) && Delimited(rest) && !StartsAnnotation(rest)
    ensures ParseSexp(PrintTo(s, rest)) == Done(s, rest)
    decreases s, 0, 1
  {
    var c := "[" + AllTo(s.args, "]" + OutputTo(s.output, ")" + rest));
    var b := PrintTo(s.func, ")" + (" " + c));
    var a := PrintTo(s.service, " " + b);
    var inp := PrintTo(s.peer, " " + ("(" + a));
    PrintOpens(s.service, " " + b);
    SpaceAndParenthesis(a);
    RoundTrip(s.peer, " " + ("(" + a));
    StringInFront(s.service.text, " " + b);
    PrintOpens(s.func, ")" + (" " + c));
    ParenthesisAndSpace(c);
    RoundTrip(s.func, ")" + (" " + c));
    CallEndRoundTrip(s, rest);
    CallSteps(inp, s.peer, a, s.service, b, s.func, c, s, rest);
    SexpIsCall(inp, s, rest);
  }

  /** Parsing the printed form of a script gives back the script. */
  lemma ParseUndoesPrint(s: Sexp)
    requires WellFormed(s)
    ensures FromStr(Print(s)) == Some(s)
    ensures forall rest | Delimited(rest) && !StartsAnnotation(rest) :: ParseSexp(Print(s) + rest) == Done(s, rest)
  {
    forall rest | Delimited(rest) && !StartsAnnotation(rest)
      ensures ParseSexp(Print(s) + rest) == Done(s, rest)
    {
      RoundTrip(s, rest);
      PrintToIsPrint(s, rest);
    }
    RoundTrip(s, "");
    PrintToIsPrint(s, "");
    PrintOpens(s, "");
    OneSpace(PrintTo(s, ""));
    assert Print(s) + "" == Print(s);
  }

  /**
   * Exactly the lists of two or more items headed by the symbol `call` or `canon` are
   * excluded: such a list is never read back as a list.
   */
  lemma MisleadingListIsLost(items: seq<Sexp>, rest: string)
    requires Misleading(items)
    ensures var r := ParseSexp(Print(List(items)) + rest); r.Failure? || (r.Done? && !r.value.List?)
  {
    PrintToIsPrint(List(items), rest);
    var word := items[0].name;
    var more := MoreTo(items[2..], ")" + rest);
    var tail := PrintTo(items[1], more);
    assert items[1..][0] == items[1] && items[1..][1..] == items[2..];
    var inp := word + (" " + tail);
    assert AllTo(items, ")" + rest) == inp;
    assert inp == (word + " ") + tail;
    assert "call" + " " == "call " && "canon" + " " == "canon ";
    if word == "call" {
      HeadInFront("call ", tail);
    } else {
      NotTheOther(tail);
      HeadInFront("canon ", tail);
    }
  }
}
