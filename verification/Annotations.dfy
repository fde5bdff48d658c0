/** Which text behind a call or a list is an annotation, and what is left behind it. */
module Annotations {
  import opened Wrappers
  import opened Sexps
  import opened SexpParser

  predicate AllBlank(s: string) {
    forall k | 0 <= k < |s| :: s[k] == ' ' || s[k] == '\t'
  }

  predicate IsNewline(c: char) {
    c == '\r' || c == '\n'
  }

  /** The end mark begins nowhere in the text, also not with its last character. */
  predicate Unclosed(text: string) {
    forall k | 0 <= k < |text| :: !(text[k] == '|' && (text + "|#")[k + 1] == '#')
  }

  /** A semicolon and a space, and then at least one character up to the end of the line. */
  predicate IsLine(inp: string, text: string, rest: string) {
    && inp == "; " + text + rest && text != ""
    && (forall k | 0 <= k < |text| :: !IsNewline(text[k]))
    && (rest == "" || IsNewline(rest[0]))
  }

  /** What is between the marks, which may span lines. */
  predicate IsBlock(inp: string, text: string, rest: string) {
    inp == "#|" + text + ("|#" + rest) && Unclosed(text)
  }

  lemma {:induction false} BlanksSkipped(inp: string) returns (blanks: string)
    ensures inp == blanks + SkipBlanks(inp) && AllBlank(blanks)
    ensures SkipBlanks(inp) != "" ==> SkipBlanks(inp)[0] != ' ' && SkipBlanks(inp)[0] != '\t'
  {
    blanks := "";
    if SkipBlanks(inp) != inp {
      blanks := BlanksSkipped(inp[1..]);
      blanks := [inp[0]] + blanks;
    }
  }

  lemma {:induction false} SkipsBlanks(blanks: string, inp: string)
    requires AllBlank(blanks) && inp != "" && inp[0] != ' ' && inp[0] != '\t'
    ensures SkipBlanks(blanks + inp) == inp
  {
    if blanks == "" {
      assert blanks + inp == inp;
    } else {
      assert (blanks + inp)[1..] == blanks[1..] + inp;
      SkipsBlanks(blanks[1..], inp);
    }
  }

  lemma {:induction false} LineSkipped(inp: string) returns (text: string)
    ensures inp == text + SkipLine(inp) && (forall k | 0 <= k < |text| :: !IsNewline(text[k]))
    ensures SkipLine(inp) == "" || IsNewline(SkipLine(inp)[0])
  {
    text := "";
    if inp != "" && !IsNewline(inp[0]) {
      text := LineSkipped(inp[1..]);
      text := [inp[0]] + text;
    }
  }

  lemma {:induction false} SkipsLine(text: string, rest: string)
    requires (forall k | 0 <= k < |text| :: !IsNewline(text[k])) && (rest == "" || IsNewline(rest[0]))
    ensures SkipLine(text + rest) == rest
  {
    if text == "" {
      assert text + rest == rest;
    } else {
      assert (text + rest)[1..] == text[1..] + rest;
      SkipsLine(text[1..], rest);
    }
  }

  lemma {:induction false} BlockEnds(text: string, rest: string)
    requires Unclosed(text)
    ensures BlockEnd(text + ("|#" + rest)) == |text|
  {
    var all := text + ("|#" + rest);
    if text == "" {
      assert all == "|#" + rest;
    } else {
      assert all[1..] == text[1..] + ("|#" + rest);
      assert all[1] == (text + "|#")[1];
      assert !("|#" <= all) by { assert "|#"[0] == '|' && "|#"[1] == '#'; }
      assert forall k | 0 <= k < |text[1..]| :: text[1..][k] == text[k + 1] && (text[1..] + "|#")[k + 1] == (text + "|#")[k + 2];
      BlockEnds(text[1..], rest);
    }
  }

  lemma {:induction false} BlockFound(inp: string)
    requires BlockEnd(inp) < |inp|
    ensures var n := BlockEnd(inp); Unclosed(inp[..n]) && inp == inp[..n] + ("|#" + inp[n + 2..])
  {
    var n := BlockEnd(inp);
    if "|#" <= inp {
      assert inp[..2] == "|#";
    } else {
      BlockFound(inp[1..]);
      var text := inp[..n];
      assert text[1..] == inp[1..][..n - 1];
      assert inp[1..][n - 1 + 2..] == inp[n + 2..];
      assert inp == text + ("|#" + inp[n + 2..]);
      OneMoreUnclosed(inp, text, inp[n + 2..]);
    }
  }

  lemma OneMoreUnclosed(inp: string, text: string, rest: string)
    requires inp == text + ("|#" + rest) && text != "" && !("|#" <= inp) && Unclosed(text[1..])
    ensures Unclosed(text)
  {
    forall k | 0 <= k < |text|
      ensures !(text[k] == '|' && (text + "|#")[k + 1] == '#')
    {
      if k == 0 {
        assert inp[0] == text[0] && inp[1] == (text + "|#")[1];
        assert inp[0] == '|' && inp[1] == '#' ==> inp[..2] == "|#";
      } else {
        assert text[1..][k - 1] == text[k] && (text[1..] + "|#")[k] == (text + "|#")[k + 1];
      }
    }
  }

  /** Some blanks, and then an annotation up to the rest. */
  ghost predicate IsAnnotation(inp: string, text: string, rest: string) {
    exists blanks, tail ::
      inp == blanks + tail && blanks != "" && AllBlank(blanks) && (IsLine(tail, text, rest) || IsBlock(tail, text, rest))
  }

  lemma AnnotationIsTaken(blanks: string, tail: string, text: string, rest: string)
    requires blanks != "" && AllBlank(blanks) && (IsLine(tail, text, rest) || IsBlock(tail, text, rest))
    ensures ParseAnnotation(blanks + tail) == Done(Some(ServiceDefinition(text)), rest)
  {
    assert tail[0] == (if IsLine(tail, text, rest) then ';' else '#');
    SkipsBlanks(blanks, tail);
    if IsLine(tail, text, rest) {
      assert tail[..2] == "; " && tail[2..] == text + rest;
      SkipsLine(text, rest);
      assert tail[2..][..|text|] == text;
    } else {
      assert tail[..2] == "#|" && tail[2..] == text + ("|#" + rest);
      BlockEnds(text, rest);
      assert tail[2..][..|text|] == text && tail[2..][|text| + 2..] == rest;
      assert !("; " <= tail) by { assert "; "[0] == ';'; }
    }
  }

  lemma TakenIsAnnotation(inp: string, text: string, rest: string)
    requires ParseAnnotation(inp) == Done(Some(ServiceDefinition(text)), rest)
    ensures IsAnnotation(inp, text, rest)
  {
    var tail := SkipBlanks(inp);
    var blanks := BlanksSkipped(inp);
    assert blanks == "" ==> inp == tail;
    if "; " <= tail {
      var line := LineSkipped(tail[2..]);
      assert tail == "; " + tail[2..];
      assert IsLine(tail, text, rest);
    } else {
      BlockFound(tail[2..]);
      assert tail == "#|" + tail[2..];
      assert IsBlock(tail, text, rest);
    }
  }

  /** An annotation is taken exactly if there is one, with exactly its text. */
  lemma AnnotationsExactly(inp: string, text: string, rest: string)
    ensures ParseAnnotation(inp) == Done(Some(ServiceDefinition(text)), rest) <==> IsAnnotation(inp, text, rest)
  {
    if ParseAnnotation(inp) == Done(Some(ServiceDefinition(text)), rest) {
      TakenIsAnnotation(inp, text, rest);
    }
    if IsAnnotation(inp, text, rest) {
      var blanks, tail :| inp == blanks + tail && blanks != "" && AllBlank(blanks)
        && (IsLine(tail, text, rest) || IsBlock(tail, text, rest));
      AnnotationIsTaken(blanks, tail, text, rest);
    }
  }
}
