/** What the map parser does with every text whatever: the passages it gets past, printed in
    front of each other, and where it ends. */
module MapGrammar {
  import opened Common
  import opened DartLexer
  import opened MapParser
  import opened MapPrinter

  // ---- passages ------------------------------------------------------------------------------------

  /** A comma; an entry, perhaps with a `+` that leads nowhere; or a key with a value that
      does not begin with a literal. */
  datatype Passage =
    | Comma(before: Gap)
    | Read(e: Item, plus: bool)
    | LeftOut(before: Gap, key: Quoted, colon: Gap, value: Gap, head: Head, junk: Text)

  function PrintJunk(t: Text, rest: string): string {
    Print(t, '(', ')') + rest
  }

  function PrintPassage(p: Passage, rest: string): string {
    match p
    case Comma(before) => PrintGap(before, [','] + rest)
    case Read(e, plus) => PrintItem(e, if plus then ['+'] + rest else rest)
    case LeftOut(before, key, colon, value, head, junk) =>
      PrintKey(before, key, colon, value, PrintHead(head, PrintJunk(junk, rest)))
  }

  /** Literals, and characters that are no commas; a quote only if nothing closes it.
      Brackets are characters like any other. */
  predicate Loose(t: Text, rest: string) {
    match t
    case End => true
    case Ch(c, more) =>
      c != ',' && (Quote(c) ==> Extract([c] + PrintJunk(more, rest)).None?) && Loose(more, rest)
    case Str(q, raw, more) => Quote(q) && WellQuoted(raw, q) && Loose(more, rest)
    case Nest(_, _) => false
  }

  /** The passage ends where it should if this is what follows it. */
  predicate Fits(p: Passage, rest: string) {
    match p
    case Comma(_) => true
    case Read(_, plus) => if plus then Extract(Skip(rest)).None? else Ends(rest)
    case LeftOut(_, _, _, _, head, junk) =>
      var v := PrintJunk(junk, rest);
      && (rest == "" || rest[0] == ',') && Loose(junk, rest)
      && Skip(v) == v && Extract(v).None? && (head.Plain? ==> v != "" && v[0] != '(')
  }

  function Noted(p: Passage, acc: map<string, string>): map<string, string> {
    if p.Read? then acc[p.e.Locale() := p.e.Text()] else acc
  }

  // ---- each of them is passed ------------------------------------------------------------------------

  /** White space and one comma make no difference between entries. */
  lemma CommaIsFree(s: string, acc: map<string, string>)
    ensures ParseEntries(PastComma(Skip(s)), acc) == ParseEntries(s, acc)
  {
    SkipTwice(s);
    var at := Skip(s);
    assert NextTurn(at) == NextTurn(s);
    if at != "" && at[0] == ',' {
      assert NextTurn(s) == Over(at[1..]);
    }
  }

  lemma ReadIsPassed(e: Item, plus: bool, rest: string, acc: map<string, string>)
    requires Fits(Read(e, plus), rest)
    ensures ParseEntries(PrintPassage(Read(e, plus), rest), acc) == ParseEntries(rest, acc[e.Locale() := e.Text()])
  {
    var behind := if plus then ['+'] + rest else rest;
    if plus {
      Pushed('+', rest);
      VisibleStays(behind);
    }
    ItemIsRead(e, behind);
    assert Past(behind) == Skip(rest);
    CommaIsFree(rest, acc[e.Locale() := e.Text()]);
  }

  lemma JunkHead(t: Text, rest: string)
    requires !t.End? && !t.Nest?
    ensures PrintJunk(t, rest) != ""
    ensures t.Ch? ==> PrintJunk(t, rest) == [t.c] + PrintJunk(t.more, rest)
    ensures t.Ch? ==> PrintJunk(t, rest)[0] == t.c && PrintJunk(t, rest)[1..] == PrintJunk(t.more, rest)
    ensures t.Str? ==> PrintJunk(t, rest)[0] == t.q && PrintJunk(t, rest)[1..] == t.raw + [t.q] + PrintJunk(t.more, rest)
  {
    PrintedHead(t, rest, '(', ')');
    if t.Ch? {
      var s := PrintJunk(t, rest);
      assert s == [s[0]] + s[1..];
    }
  }

  lemma {:induction false} JunkIsPassed(t: Text, rest: string)
    requires Loose(t, rest) && (rest == "" || rest[0] == ',')
    ensures ToComma(PrintJunk(t, rest)) == rest
    decreases t
  {
    if t.End? {
      assert PrintJunk(t, rest) == rest;
    } else {
      JunkHead(t, rest);
      JunkIsPassed(t.more, rest);
      if t.Str? {
        StringIsExtracted(PrintJunk(t, rest), t.q, t.raw, PrintJunk(t.more, rest));
      }
    }
  }

  lemma StringIsExtracted(s: string, q: char, raw: string, rest: string)
    requires Quote(q) && WellQuoted(raw, q) && s != "" && s[0] == q && s[1..] == raw + [q] + rest
    ensures Extract(s) == Some(Literal(raw, rest))
  {
    ScanReads(raw, q, rest);
  }

  /** A value that does not begin with a literal is left out up to the next comma outside a
      literal: empty, a lambda without a body, behind an unterminated quote, or any other. */
  lemma UnreadableValuesAreLeftOut(p: Passage, rest: string, acc: map<string, string>)
    requires p.LeftOut? && Fits(p, rest)
    ensures ParseEntries(PrintPassage(p, rest), acc) == ParseEntries(rest, acc)
  {
    var v := PrintJunk(p.junk, rest);
    var headed := PrintHead(p.head, v);
    HeadIsRead(p.head, v);
    KeyIsRead(p.before, p.key, p.colon, p.value, headed);
    JunkIsPassed(p.junk, rest);
    assert NextPiece(v) == Missing(v);
    assert Parts(v) == Pieces([], v);
    assert NextTurn(PrintPassage(p, rest)) == Over(rest);
  }

  lemma CommaIsPassed(g: Gap, rest: string, acc: map<string, string>)
    ensures ParseEntries(PrintPassage(Comma(g), rest), acc) == ParseEntries(rest, acc)
  {
    GapIsSkipped(g, [','] + rest);
    Pushed(',', rest);
    VisibleStays([','] + rest);
  }

  lemma PassageIsPassed(p: Passage, rest: string, acc: map<string, string>)
    requires Fits(p, rest)
    ensures ParseEntries(PrintPassage(p, rest), acc) == ParseEntries(rest, Noted(p, acc))
  {
    match p
    case Comma(before) => CommaIsPassed(before, rest, acc);
    case Read(e, plus) => ReadIsPassed(e, plus, rest, acc);
    case LeftOut(_, _, _, _, _, _) => UnreadableValuesAreLeftOut(p, rest, acc);
  }

  // ---- and nothing else is -------------------------------------------------------------------------------

  lemma CharSplits(s: string)
    requires s != ""
    ensures s == [s[0]] + s[1..]
  {
  }

  lemma LineOneMore(s: string, more: string, rest: string)
    requires s != "" && s[1..] == more + ("\n" + rest)
    ensures s == [s[0]] + more + ("\n" + rest)
  {
    CharSplits(s);
  }

  lemma {:induction false} LineSplits(s: string) returns (text: string)
    requires AfterLine(s) != ""
    ensures '\n' !in text && s == text + ("\n" + AfterLine(s))
    decreases |s|
  {
    if s[0] == '\n' {
      text := "";
      CharSplits(s);
    } else {
      var more := LineSplits(s[1..]);
      text := [s[0]] + more;
      LineOneMore(s, more, AfterLine(s));
    }
  }

  lemma UnmarkedOneMore(s: string, more: string, rest: string)
    requires |s| >= 2 && !(s[0] == '*' && s[1] == '/') && Unmarked(more) && s[1..] == more + ("*/" + rest)
    ensures Unmarked([s[0]] + more) && s == [s[0]] + more + ("*/" + rest)
  {
    var text := [s[0]] + more;
    assert text[1..] == more;
    assert more != "" ==> text[1] == s[1..][0];
    CharSplits(s);
  }

  lemma {:induction false} BlockSplits(s: string) returns (text: string)
    requires AfterBlock(s) != ""
    ensures Unmarked(text) && s == text + ("*/" + AfterBlock(s))
    decreases |s|
  {
    if s[0] == '*' && s[1] == '/' {
      text := "";
      assert s == "*/" + s[2..];
    } else {
      var more := BlockSplits(s[1..]);
      text := [s[0]] + more;
      UnmarkedOneMore(s, more, AfterBlock(s));
    }
  }

  lemma LineCommentSplits(s: string) returns (text: string)
    requires StartsWith(s, "//") && AfterLine(s) != ""
    ensures '\n' !in text && s == "//" + (text + ("\n" + AfterLine(s)))
  {
    var all := LineSplits(s);
    assert all[..2] == s[..2] == "//";
    text := all[2..];
    assert all == "//" + text;
  }

  lemma BlockCommentSplits(s: string) returns (text: string)
    requires StartsWith(s, "/*") && AfterBlock(s[2..]) != ""
    ensures Unmarked(text) && s == "/*" + (text + ("*/" + AfterBlock(s[2..])))
  {
    text := BlockSplits(s[2..]);
    assert s == s[..2] + s[2..];
  }

  lemma BlankSplits(s: string) returns (b: Blank, rest: string)
    requires Skip(s) != "" && Skip(s) != s
    ensures Good(b) && s == PrintBlank(b, rest) && Skip(rest) == Skip(s) && |rest| < |s|
  {
    if White(s[0]) {
      CharSplits(s);
      b, rest := Ws(s[0]), s[1..];
    } else if StartsWith(s, "//") {
      var text := LineCommentSplits(s);
      b, rest := LineComment(text), AfterLine(s);
    } else {
      var text := BlockCommentSplits(s);
      b, rest := BlockComment(text), AfterBlock(s[2..]);
    }
  }

  /** What is skipped before something visible is white space and complete comments. */
  lemma {:induction false} GapSplits(s: string) returns (g: Gap)
    requires Skip(s) != ""
    ensures s == PrintGap(g, Skip(s))
    decreases |s|
  {
    if Skip(s) == s {
      g := [];
    } else {
      var b, rest := BlankSplits(s);
      var more := GapSplits(rest);
      g := [b] + more;
      assert g[1..] == more;
    }
  }

  lemma LitSplits(s: string) returns (l: Quoted, rest: string)
    requires Extract(s).Some?
    ensures s == PrintLit(l, rest) && Extract(s) == Some(Literal(l.raw, rest)) && |rest| < |s|
  {
    var lit := Extract(s).value;
    ExtractIsRecognition(s, lit);
    l, rest := Lit(s[0], lit.raw), lit.rest;
    assert [s[0]] + lit.raw + [s[0]] + lit.rest == [s[0]] + (lit.raw + ([s[0]] + lit.rest));
  }

  lemma ArrowSplits(s: string) returns (arrow: Gap, body: Gap)
    requires PastArrow(s).Some? && PastArrow(s).value != ""
    ensures s == PrintGap(arrow, "=>" + PrintGap(body, PastArrow(s).value))
  {
    var at := Skip(s);
    arrow := GapSplits(s);
    body := GapSplits(at[2..]);
    assert at == "=>" + at[2..];
  }

  lemma HeadSplits(s: string) returns (head: Head)
    requires s != "" && PastHead(s).Some? && PastHead(s).value != "" && Skip(s) == s
    ensures var v := PastHead(s).value; s == PrintHead(head, v) && Skip(v) == v && (head.Plain? ==> v[0] != '(')
  {
    if s[0] != '(' {
      head := Plain;
    } else {
      MatchIsInside(s, 0, '(', ')');
      var k := Match(s, 0, '(', ')').value;
      MatchEncloses(s, k, '(', ')');
      var t :| Balanced(t, '(', ')') && s[..k + 1] == ['('] + Print(t, '(', ')') + [')'];
      var arrow, body := ArrowSplits(s[k + 1..]);
      SkipTwice(Skip(s[k + 1..])[2..]);
      head := Lambda(t, arrow, body);
      assert s == s[..k + 1] + s[k + 1..];
    }
  }

  /** The literals of a value, and whether a `+` follows that leads nowhere. */
  lemma {:induction false} PartsSplit(v: string) returns (first: Quoted, more: seq<Plus>, after: Gap, plus: bool, rest: string)
    requires Skip(v) == v && Extract(v).Some?
    ensures v == PrintLit(first, PrintMore(more, PrintGap(after, if plus then ['+'] + rest else rest)))
    ensures (if plus then Extract(Skip(rest)).None? else Ends(rest)) && |rest| < |v|
    decreases |v|
  {
    var behind;
    first, behind := LitSplits(v);
    more, after, plus, rest := [], [], false, behind;
    if !Ends(behind) {
      var gap := GapSplits(behind);
      var next := Skip(behind)[1..];
      CharSplits(Skip(behind));
      SkipShortens(behind);
      if Extract(Skip(next)).None? {
        after, plus, rest := gap, true, next;
      } else {
        SkipTwice(next);
        SkipShortens(next);
        var lead := GapSplits(next);
        var lit, others;
        lit, others, after, plus, rest := PartsSplit(Skip(next));
        more := [Plus(gap, lead, lit)] + others;
        assert more[1..] == others;
      }
    }
  }

  lemma SkipShortens(s: string)
    ensures |Skip(s)| <= |s|
  {
  }

  lemma LitOnJunk(s: string, l: Quoted, behind: string, more: Text, rest: string)
    requires s == PrintLit(l, behind) && behind == PrintJunk(more, rest)
    ensures s == PrintJunk(Str(l.q, l.raw, more), rest)
  {
    var t := Str(l.q, l.raw, more);
    JunkHead(t, rest);
    CharSplits(PrintJunk(t, rest));
    assert l.raw + ([l.q] + behind) == l.raw + [l.q] + behind;
  }

  /** What is passed on the way to a comma. */
  lemma {:induction false} JunkSplits(s: string) returns (t: Text)
    ensures Loose(t, ToComma(s)) && s == PrintJunk(t, ToComma(s))
    decreases |s|
  {
    var rest := ToComma(s);
    if s == "" || s[0] == ',' {
      t := End;
      assert PrintJunk(t, rest) == rest;
    } else if Quote(s[0]) && Extract(s).Some? {
      var l, behind := LitSplits(s);
      var more := JunkSplits(behind);
      t := Str(l.q, l.raw, more);
      LitOnJunk(s, l, behind, more, rest);
    } else {
      var more := JunkSplits(s[1..]);
      t := Ch(s[0], more);
      JunkHead(t, rest);
      CharSplits(s);
    }
  }

  /** From the key to where its value starts. */
  lemma KeySplits(s: string) returns (before: Gap, key: Quoted, colon: Gap, tail: string)
    requires Skip(s) != "" && Extract(Skip(s)).Some?
    requires PastColon(Extract(Skip(s)).value.rest).Some?
    ensures s == PrintGap(before, PrintLit(key, PrintGap(colon, [':'] + tail)))
    ensures Extract(Skip(s)).value.raw == key.raw
    ensures PastColon(Extract(Skip(s)).value.rest) == Some(Skip(tail)) && |tail| < |s|
  {
    before := GapSplits(s);
    var behind;
    key, behind := LitSplits(Skip(s));
    colon := GapSplits(behind);
    CharSplits(Skip(behind));
    tail := Skip(behind)[1..];
    SkipShortens(behind);
  }

  lemma ValueSplits(before: Gap, key: Quoted, colon: Gap, tail: string) returns (p: Passage, rest: string)
    requires Skip(tail) != ""
    requires var t := ValueTurn(Unescape(key.raw), Skip(tail)); t.Entry? || (t.Over? && t.rest != "")
    ensures Fits(p, rest) && PrintGap(before, PrintLit(key, PrintGap(colon, [':'] + tail))) == PrintPassage(p, rest)
    ensures |rest| <= |tail|
  {
    var value := GapSplits(tail);
    var at := Skip(tail);
    SkipTwice(tail);
    SkipShortens(tail);
    var v := PastHead(at).value;
    var head := HeadSplits(at);
    if Extract(v).Some? {
      var first, more, after, plus;
      first, more, after, plus, rest := PartsSplit(v);
      p := Read(Item(before, key, colon, value, head, first, more, after), plus);
    } else {
      assert Parts(v) == Pieces([], v);
      var junk := JunkSplits(v);
      rest := ToComma(v);
      ToCommaStops(v);
      p := LeftOut(before, key, colon, value, head, junk);
    }
  }

  lemma {:induction false} ToCommaStops(s: string)
    ensures ToComma(s) == "" || ToComma(s)[0] == ','
    decreases |s|
  {
    if s != "" && s[0] != ',' {
      if Quote(s[0]) && Extract(s).Some? {
        ExtractIsTail(s);
        ToCommaStops(Extract(s).value.rest);
      } else {
        ToCommaStops(s[1..]);
      }
    }
  }

  /** One turn of the parser that goes on is one of the passages. */
  lemma TurnSplits(s: string) returns (p: Passage, rest: string)
    requires NextTurn(s).Entry? || (NextTurn(s).Over? && NextTurn(s).rest != "")
    ensures s == PrintPassage(p, rest) && Fits(p, rest) && |rest| < |s|
  {
    var at := Skip(s);
    if at[0] == ',' {
      var before := GapSplits(s);
      CharSplits(at);
      SkipShortens(s);
      p, rest := Comma(before), at[1..];
    } else {
      var before, key, colon, tail := KeySplits(s);
      p, rest := ValueSplits(before, key, colon, tail);
    }
  }

  // ---- every text ------------------------------------------------------------------------------------------

  function PrintAll(ps: seq<Passage>, rest: string): string {
    if ps == [] then rest else PrintPassage(ps[0], PrintAll(ps[1..], rest))
  }

  predicate AllFit(ps: seq<Passage>, rest: string) {
    ps != [] ==> Fits(ps[0], PrintAll(ps[1..], rest)) && AllFit(ps[1..], rest)
  }

  function AllNoted(ps: seq<Passage>, acc: map<string, string>): map<string, string> {
    if ps == [] then acc else AllNoted(ps[1..], Noted(ps[0], acc))
  }

  lemma {:induction false} PassagesArePassed(ps: seq<Passage>, rest: string, acc: map<string, string>)
    requires AllFit(ps, rest)
    ensures ParseEntries(PrintAll(ps, rest), acc) == ParseEntries(rest, AllNoted(ps, acc))
    decreases |ps|
  {
    if ps != [] {
      PassageIsPassed(ps[0], PrintAll(ps[1..], rest), acc);
      PassagesArePassed(ps[1..], rest, Noted(ps[0], acc));
    }
  }

  /** The parser goes no further here. */
  predicate Final(rest: string) {
    NextTurn(rest).Stop? || NextTurn(rest).Crash? || NextTurn(rest) == Over("")
  }

  lemma {:induction false} EveryTextSplits(s: string) returns (ps: seq<Passage>, rest: string)
    ensures s == PrintAll(ps, rest) && AllFit(ps, rest) && Final(rest)
    decreases |s|
  {
    if Final(s) {
      ps, rest := [], s;
    } else {
      var p, behind := TurnSplits(s);
      var more;
      more, rest := EveryTextSplits(behind);
      ps := [p] + more;
      assert ps[1..] == more;
    }
  }

  /** Every text is a sequence of passages before a place where the parser ends, and what is
      returned is exactly the entries among the passages, unless it ends with a crash. */
  lemma EveryTextIsRead(s: string, acc: map<string, string>) returns (ps: seq<Passage>, rest: string)
    ensures s == PrintAll(ps, rest) && AllFit(ps, rest) && Final(rest)
    ensures ParseEntries(s, acc) == if NextTurn(rest).Crash? then IndexError else Entries(AllNoted(ps, acc))
  {
    ps, rest := EveryTextSplits(s);
    PassagesArePassed(ps, rest, acc);
    assert NextTurn("") == Stop;
  }

  /** A key whose colon has nothing but space behind it, complete comment or not. */
  ghost predicate DanglingKey(s: string) {
    exists before: Gap, key: Quoted, colon: Gap, tail: string ::
      s == PrintGap(before, PrintLit(key, PrintGap(colon, [':'] + tail))) && Skip(tail) == ""
  }

  lemma CrashIsDangling(s: string)
    ensures NextTurn(s).Crash? <==> DanglingKey(s)
  {
    if NextTurn(s).Crash? {
      var before, key, colon, tail := KeySplits(s);
      assert Skip(tail) == "";
    }
    if DanglingKey(s) {
      var before: Gap, key: Quoted, colon: Gap, tail: string :|
        s == PrintGap(before, PrintLit(key, PrintGap(colon, [':'] + tail))) && Skip(tail) == "";
      KeyIsRead(before, key, colon, [], tail);
    }
  }

  /** Passages and then a key whose colon dangles. */
  ghost predicate EndsDangling(s: string) {
    exists ps, rest :: s == PrintAll(ps, rest) && AllFit(ps, rest) && DanglingKey(rest)
  }

  /** The parser indexes beyond the end of its input if and only if the text is passages
      followed by a key whose colon has nothing but space behind it. */
  lemma CrashesIff(s: string, acc: map<string, string>)
    ensures ParseEntries(s, acc).IndexError? <==> EndsDangling(s)
  {
    if ParseEntries(s, acc).IndexError? {
      var ps, rest := EveryTextIsRead(s, acc);
      CrashIsDangling(rest);
    }
    if EndsDangling(s) {
      var ps, rest :| s == PrintAll(ps, rest) && AllFit(ps, rest) && DanglingKey(rest);
      PassagesArePassed(ps, rest, acc);
      CrashIsDangling(rest);
    }
  }
}
