/** A printer for map bodies, independent of the parser, and what the parser makes of what
    it prints. Every printing function puts its piece in front of a given rest. */
module MapPrinter {
  import opened Common
  import opened DartLexer
  import opened MapParser

  // ---- white space and comments ----------------------------------------------------------------

  datatype Blank = Ws(c: char) | LineComment(text: string) | BlockComment(text: string)

  /** No end-of-comment mark inside. */
  predicate Unmarked(text: string) {
    |text| < 2 || (!(text[0] == '*' && text[1] == '/') && Unmarked(text[1..]))
  }

  predicate Good(b: Blank) {
    match b
    case Ws(c) => c == ' ' || c == '\t' || c == '\r' || c == '\n'
    case LineComment(text) => '\n' !in text
    case BlockComment(text) => Unmarked(text)
  }

  type Gap = g: seq<Blank> | forall k :: 0 <= k < |g| ==> Good(g[k])

  function PrintBlank(b: Blank, rest: string): string {
    match b
    case Ws(c) => [c] + rest
    case LineComment(text) => "//" + (text + ("\n" + rest))
    case BlockComment(text) => "/*" + (text + ("*/" + rest))
  }

  function PrintGap(g: Gap, rest: string): string {
    if g == [] then rest else PrintBlank(g[0], PrintGap(g[1..], rest))
  }

  lemma {:induction false} LineEnds(text: string, rest: string)
    requires '\n' !in text
    ensures AfterLine(text + ("\n" + rest)) == rest
    decreases |text|
  {
    var s := text + ("\n" + rest);
    if text == "" {
      assert s[1..] == rest;
    } else {
      assert s[0] == text[0] && s[1..] == text[1..] + ("\n" + rest);
      LineEnds(text[1..], rest);
    }
  }

  lemma {:induction false} BlockEnds(text: string, rest: string)
    requires Unmarked(text)
    ensures AfterBlock(text + ("*/" + rest)) == rest
    decreases |text|
  {
    var s := text + ("*/" + rest);
    if text == "" {
      assert s[2..] == rest;
    } else {
      assert s[0] == text[0] && s[1..] == text[1..] + ("*/" + rest);
      assert |text| > 1 ==> s[1] == text[1];
      BlockEnds(text[1..], rest);
    }
  }

  lemma BlankIsSkipped(b: Blank, rest: string)
    requires Good(b)
    ensures Skip(PrintBlank(b, rest)) == Skip(rest)
  {
    var s := PrintBlank(b, rest);
    match b
    case Ws(c) =>
      assert s[1..] == rest;
    case LineComment(text) =>
      assert StartsWith(s, "//");
      assert s == ("//" + text) + ("\n" + rest);
      LineEnds("//" + text, rest);
    case BlockComment(text) =>
      assert StartsWith(s, "/*");
      assert s[2..] == text + ("*/" + rest);
      BlockEnds(text, rest);
  }

  /** White space and comments of any kind and number are invisible to the parser. */
  lemma {:induction false} GapIsSkipped(g: Gap, rest: string)
    ensures Skip(PrintGap(g, rest)) == Skip(rest)
    decreases |g|
  {
    if g != [] {
      GapIsSkipped(g[1..], rest);
      BlankIsSkipped(g[0], PrintGap(g[1..], rest));
    }
  }

  /** A text that begins neither with white space nor with a comment is not skipped. */
  predicate Visible(s: string) {
    && s != "" && s[0] != ' ' && s[0] != '\t' && s[0] != '\r' && s[0] != '\n'
    && !(|s| >= 2 && s[0] == '/' && (s[1] == '/' || s[1] == '*'))
  }

  lemma VisibleStays(s: string)
    requires Visible(s)
    ensures Skip(s) == s
  {
    assert |s| >= 2 ==> s[..2][0] == s[0] && s[..2][1] == s[1];
  }

  /** A comment that nothing ends is skipped with all that follows. */
  lemma UnclosedCommentsAreSkipped(text: string)
    ensures '\n' !in text ==> Skip("//" + text) == ""
    ensures Unmarked(text) ==> Skip("/*" + text) == ""
  {
    assert StartsWith("//" + text, "//") && StartsWith("/*" + text, "/*") && ("/*" + text)[2..] == text;
    if '\n' !in text {
      LineNeverEnds("//" + text);
    }
    if Unmarked(text) {
      BlockNeverEnds(text);
    }
  }

  lemma {:induction false} LineNeverEnds(text: string)
    requires '\n' !in text
    ensures AfterLine(text) == ""
    decreases |text|
  {
    if text != "" {
      LineNeverEnds(text[1..]);
    }
  }

  lemma {:induction false} BlockNeverEnds(text: string)
    requires Unmarked(text)
    ensures AfterBlock(text) == ""
    decreases |text|
  {
    if |text| >= 2 {
      BlockNeverEnds(text[1..]);
    }
  }

  lemma {:induction false} SkipTwice(s: string)
    ensures Skip(Skip(s)) == Skip(s)
    decreases |s|
  {
    if s != "" {
      if White(s[0]) {
        SkipTwice(s[1..]);
      } else if StartsWith(s, "//") {
        ShorterLine(s);
        SkipTwice(AfterLine(s));
      } else if StartsWith(s, "/*") {
        SkipTwice(AfterBlock(s[2..]));
      }
    }
  }

  // ---- literals --------------------------------------------------------------------------------------

  datatype Lit = Lit(q: char, raw: string)

  type Quoted = l: Lit | (l.q == '\'' || l.q == '"') && WellQuoted(l.raw, l.q) witness Lit('"', "")

  function PrintLit(l: Quoted, rest: string): string {
    [l.q] + (l.raw + ([l.q] + rest))
  }

  lemma LitIsRead(l: Quoted, rest: string)
    ensures var s := PrintLit(l, rest); Visible(s) && Quote(s[0]) && Extract(s) == Some(Literal(l.raw, rest))
  {
    var s := PrintLit(l, rest);
    assert s == [l.q] + l.raw + [l.q] + rest;
    ExtractIsRecognition(s, Literal(l.raw, rest));
  }

  // ---- values ------------------------------------------------------------------------------------------

  datatype Plus = Plus(before: Gap, after: Gap, lit: Quoted)

  function PrintMore(more: seq<Plus>, rest: string): string {
    if more == [] then rest
    else
      PrintGap(more[0].before, ['+'] +
        PrintGap(more[0].after, PrintLit(more[0].lit, PrintMore(more[1..], rest))))
  }

  function Whole(more: seq<Plus>): string {
    if more == [] then "" else Unescape(more[0].lit.raw) + Whole(more[1..])
  }

  /** What follows a value does not begin with a `+`. */
  predicate Ends(rest: string) {
    Skip(rest) == "" || Skip(rest)[0] != '+'
  }

  /** Nor does it lead on to another literal if it does begin with one. */
  predicate Closes(rest: string) {
    Ends(rest) || Extract(Skip(Skip(rest)[1..])).None?
  }

  /** Where the parser stands after a value: a `+` that leads nowhere is read all the same. */
  function Past(rest: string): string {
    if Ends(rest) then Skip(rest) else Skip(Skip(rest)[1..])
  }

  lemma {:induction false} PartsIgnoreGaps(g: Gap, s: string)
    ensures Parts(PrintGap(g, s)) == Parts(s)
  {
    GapIsSkipped(g, s);
  }

  lemma LastPart(first: Quoted, rest: string)
    requires Closes(rest)
    ensures Parts(PrintLit(first, rest)) == Pieces([Unescape(first.raw)], Past(rest))
  {
    var s := PrintLit(first, rest);
    LitIsRead(first, rest);
    VisibleStays(s);
    if !Ends(rest) {
      var behind := Skip(rest)[1..];
      assert Parts(behind) == Pieces([], Skip(behind));
      assert [Unescape(first.raw)] + [] == [Unescape(first.raw)];
    }
  }

  lemma {:induction false} PartsAreRead(first: Quoted, more: seq<Plus>, rest: string)
    requires Closes(rest)
    ensures var p := Parts(PrintLit(first, PrintMore(more, rest)));
            p.parts != [] && Joined(p.parts) == Unescape(first.raw) + Whole(more) && p.rest == Past(rest)
    decreases |more|
  {
    var behind := PrintMore(more, rest);
    var s := PrintLit(first, behind);
    if more == [] {
      LastPart(first, rest);
    } else {
      LitIsRead(first, behind);
      VisibleStays(s);
      var next := PrintLit(more[0].lit, PrintMore(more[1..], rest));
      var after := PrintGap(more[0].after, next);
      GapIsSkipped(more[0].before, ['+'] + after);
      Pushed('+', after);
      VisibleStays(['+'] + after);
      PartsIgnoreGaps(more[0].after, next);
      PartsAreRead(more[0].lit, more[1..], rest);
      assert Parts(s) == Ahead([Unescape(first.raw)], Parts(next));
      assert Parts(s).parts[1..] == Parts(next).parts;
    }
  }

  type Params = t: Text | Balanced(t, '(', ')') witness End

  /** A lambda's parameter list in brackets, an arrow, and space around it. */
  datatype Head = Plain | Lambda(params: Params, arrow: Gap, body: Gap)

  function PrintHead(h: Head, rest: string): string {
    match h
    case Plain => rest
    case Lambda(params, arrow, body) =>
      ['('] + Print(params, '(', ')') + [')'] + PrintGap(arrow, "=>" + PrintGap(body, rest))
  }

  lemma HeadIsRead(h: Head, v: string)
    requires Skip(v) == v && (h.Plain? ==> v != "" && v[0] != '(')
    ensures var s := PrintHead(h, v); s != "" && Skip(s) == s && PastHead(s) == Some(v)
  {
    match h
    case Plain =>
    case Lambda(params, arrow, body) =>
      var end := "=>" + PrintGap(body, v);
      var behind := PrintGap(arrow, end);
      var p := Print(params, '(', ')');
      var s := PrintHead(h, v);
      assert s == ['('] + p + [')'] + behind && s[0] == '(';
      VisibleStays(s);
      MatchesBalanced(params, behind, '(', ')');
      assert s[|p| + 2..] == behind;
      GapIsSkipped(arrow, end);
      VisibleStays(end);
      assert end[2..] == PrintGap(body, v);
      GapIsSkipped(body, v);
  }

  // ---- entries ---------------------------------------------------------------------------------------------

  /** An entry in some layout: spaces and comments anywhere, perhaps a lambda, and the text
      in one literal or several. */
  datatype Item = Item(before: Gap, key: Quoted, colon: Gap, value: Gap, head: Head,
                       first: Quoted, more: seq<Plus>, after: Gap)
  {
    function Locale(): string {
      Unescape(key.raw)
    }

    function Text(): string {
      Unescape(first.raw) + Whole(more)
    }
  }

  function PrintValue(e: Item, rest: string): string {
    PrintHead(e.head, PrintLit(e.first, PrintMore(e.more, PrintGap(e.after, rest))))
  }

  function PrintKey(before: Gap, key: Quoted, colon: Gap, value: Gap, rest: string): string {
    PrintGap(before, PrintLit(key, PrintGap(colon, [':'] + PrintGap(value, rest))))
  }

  function PrintItem(e: Item, rest: string): string {
    PrintKey(e.before, e.key, e.colon, e.value, PrintValue(e, rest))
  }

  lemma KeyIsRead(before: Gap, key: Quoted, colon: Gap, value: Gap, rest: string)
    ensures NextTurn(PrintKey(before, key, colon, value, rest))
         == if Skip(rest) == "" then Crash else ValueTurn(Unescape(key.raw), Skip(rest))
  {
    var valued := PrintGap(value, rest);
    var behind := PrintGap(colon, [':'] + valued);
    var keyed := PrintLit(key, behind);
    GapIsSkipped(before, keyed);
    LitIsRead(key, behind);
    VisibleStays(keyed);
    GapIsSkipped(colon, [':'] + valued);
    Pushed(':', valued);
    VisibleStays([':'] + valued);
    GapIsSkipped(value, rest);
  }

  lemma PastGap(g: Gap, rest: string)
    ensures Closes(PrintGap(g, rest)) <==> Closes(rest)
    ensures Past(PrintGap(g, rest)) == Past(rest) && Skip(Past(rest)) == Past(rest)
  {
    GapIsSkipped(g, rest);
    SkipTwice(rest);
    if !Ends(rest) {
      SkipTwice(Skip(rest)[1..]);
    }
  }

  lemma ItemIsRead(e: Item, rest: string)
    requires Closes(rest)
    ensures NextTurn(PrintItem(e, rest)) == Entry(e.Locale(), e.Text(), PastComma(Past(rest)))
  {
    var behind := PrintGap(e.after, rest);
    var v := PrintLit(e.first, PrintMore(e.more, behind));
    var headed := PrintHead(e.head, v);
    KeyIsRead(e.before, e.key, e.colon, e.value, headed);
    LitIsRead(e.first, PrintMore(e.more, behind));
    VisibleStays(v);
    HeadIsRead(e.head, v);
    PastGap(e.after, rest);
    PartsAreRead(e.first, e.more, behind);
  }

  // ---- whole bodies --------------------------------------------------------------------------------------------

  function PrintItems(es: seq<Item>, rest: string): string {
    if es == [] then rest else PrintItem(es[0], [','] + PrintItems(es[1..], rest))
  }

  /** The entries added one after the other: for a repeated locale, the last one stays. */
  function Meaning(es: seq<Item>, acc: map<string, string>): map<string, string> {
    if es == [] then acc else Meaning(es[1..], acc[es[0].Locale() := es[0].Text()])
  }

  /** Entries followed by commas are read in order, and the parser is then at what follows. */
  lemma {:induction false} ItemsAreRead(es: seq<Item>, rest: string, acc: map<string, string>)
    ensures ParseEntries(PrintItems(es, rest), acc) == ParseEntries(rest, Meaning(es, acc))
    decreases |es|
  {
    if es != [] {
      var more := PrintItems(es[1..], rest);
      Pushed(',', more);
      VisibleStays([','] + more);
      ItemIsRead(es[0], [','] + more);
      ItemsAreRead(es[1..], rest, acc[es[0].Locale() := es[0].Text()]);
    }
  }

  lemma NothingLeft(g: Gap, acc: map<string, string>)
    ensures Skip(PrintGap(g, "")) == ""
    ensures ParseEntries(PrintGap(g, ""), acc) == Entries(acc)
  {
    GapIsSkipped(g, "");
  }

  /** A map body: entries separated by commas, perhaps a comma at the end, and space. */
  datatype Body = Body(es: seq<Item>, comma: bool, last: Gap)

  function PrintBody(b: Body): string {
    var end := PrintGap(b.last, "");
    if b.es == [] || b.comma then PrintItems(b.es, end)
    else
      var n := |b.es| - 1;
      PrintItems(b.es[..n], PrintItem(b.es[n], end))
  }

  lemma {:induction false} MeaningOfLast(es: seq<Item>, e: Item, acc: map<string, string>)
    ensures Meaning(es + [e], acc) == Meaning(es, acc)[e.Locale() := e.Text()]
    decreases |es|
  {
    if es == [] {
      assert es + [e] == [e] && [e][1..] == [];
    } else {
      assert (es + [e])[1..] == es[1..] + [e];
      MeaningOfLast(es[1..], e, acc[es[0].Locale() := es[0].Text()]);
    }
  }

  /** The last entry needs no comma. */
  lemma LastItemIsRead(es: seq<Item>, e: Item, g: Gap, acc: map<string, string>)
    ensures ParseEntries(PrintItems(es, PrintItem(e, PrintGap(g, ""))), acc) == Entries(Meaning(es + [e], acc))
  {
    var end := PrintGap(g, "");
    var m := Meaning(es, acc);
    ItemsAreRead(es, PrintItem(e, end), acc);
    NothingLeft(g, m[e.Locale() := e.Text()]);
    ItemIsRead(e, end);
    MeaningOfLast(es, e, acc);
    assert ParseEntries("", m[e.Locale() := e.Text()]) == Entries(m[e.Locale() := e.Text()]);
  }

  /** Parsing undoes printing, in every layout. */
  lemma ParsingUndoesPrinting(b: Body)
    ensures ParseEntries(PrintBody(b), map[]) == Entries(Meaning(b.es, map[]))
  {
    if b.es == [] || b.comma {
      ItemsAreRead(b.es, PrintGap(b.last, ""), map[]);
      NothingLeft(b.last, Meaning(b.es, map[]));
    } else {
      var n := |b.es| - 1;
      LastItemIsRead(b.es[..n], b.es[n], b.last, map[]);
      assert b.es == b.es[..n] + [b.es[n]];
    }
  }

  /** `k` is the last entry for its locale. */
  predicate LastFor(es: seq<Item>, k: int) {
    0 <= k < |es| && forall j :: k < j < |es| ==> es[j].Locale() != es[k].Locale()
  }

  lemma {:induction false} MeaningKeeps(es: seq<Item>, acc: map<string, string>, locale: string)
    requires forall j :: 0 <= j < |es| ==> es[j].Locale() != locale
    ensures locale in Meaning(es, acc) <==> locale in acc
    ensures locale in acc ==> Meaning(es, acc)[locale] == acc[locale]
    decreases |es|
  {
    if es != [] {
      assert es[0].Locale() != locale;
      MeaningKeeps(es[1..], acc[es[0].Locale() := es[0].Text()], locale);
    }
  }

  lemma {:induction false} MeaningHas(es: seq<Item>, k: nat, acc: map<string, string>)
    requires LastFor(es, k)
    ensures es[k].Locale() in Meaning(es, acc) && Meaning(es, acc)[es[k].Locale()] == es[k].Text()
    decreases |es|
  {
    var next := acc[es[0].Locale() := es[0].Text()];
    if k == 0 {
      MeaningKeeps(es[1..], next, es[0].Locale());
    } else {
      MeaningHas(es[1..], k - 1, next);
    }
  }

  // What an entry says is put here by its spelling, without the parser's unescaping.

  predicate Says(l: Quoted, text: string) {
    Spelling(l.raw, text, l.q)
  }

  /** The literals of a value spell a text, piece by piece. */
  ghost predicate SaysAll(first: Quoted, more: seq<Plus>, text: string)
    decreases |more|
  {
    if more == [] then Says(first, text)
    else exists k: nat :: k <= |text| && Says(first, text[..k]) && SaysAll(more[0].lit, more[1..], text[k..])
  }

  ghost predicate Writes(e: Item, pair: (string, string)) {
    Says(e.key, pair.0) && SaysAll(e.first, e.more, pair.1)
  }

  lemma {:induction false} SaysAllIff(first: Quoted, more: seq<Plus>, text: string)
    ensures SaysAll(first, more, text) <==> Unescape(first.raw) + Whole(more) == text
    decreases |more|
  {
    var head := Unescape(first.raw);
    if more == [] {
      SpellingIff(first.raw, text, first.q);
      assert head + "" == head;
    } else {
      if SaysAll(first, more, text) {
        var k: nat :| k <= |text| && Says(first, text[..k]) && SaysAll(more[0].lit, more[1..], text[k..]);
        SpellingIff(first.raw, text[..k], first.q);
        SaysAllIff(more[0].lit, more[1..], text[k..]);
        assert text == text[..k] + text[k..];
      }
      if head + Whole(more) == text {
        var k := |head|;
        assert text[..k] == head && text[k..] == Whole(more);
        SpellingIff(first.raw, text[..k], first.q);
        SaysAllIff(more[0].lit, more[1..], text[k..]);
      }
    }
  }

  lemma WritesIff(e: Item, pair: (string, string))
    ensures Writes(e, pair) <==> pair == (e.Locale(), e.Text())
  {
    SpellingIff(e.key.raw, pair.0, e.key.q);
    SaysAllIff(e.first, e.more, pair.1);
  }

  /** The map has for every locale the text paired with it last, and no other locale. */
  ghost predicate HasLast(m: map<string, string>, pairs: seq<(string, string)>) {
    && (forall k :: 0 <= k < |pairs| && (forall j :: k < j < |pairs| ==> pairs[j].0 != pairs[k].0) ==>
          pairs[k].0 in m && m[pairs[k].0] == pairs[k].1)
    && (forall locale <- m :: exists k :: 0 <= k < |pairs| && pairs[k].0 == locale)
  }

  /** Whatever pairs are written, however they are spelt and laid out, parsing gives back for
      every locale the text written last, and no other locale; so with distinct locales it
      gives exactly the pairs. */
  lemma PairsRoundTrip(b: Body, pairs: seq<(string, string)>)
    requires |pairs| == |b.es| && forall k :: 0 <= k < |pairs| ==> Writes(b.es[k], pairs[k])
    ensures var r := ParseEntries(PrintBody(b), map[]);
            r.Entries? && HasLast(r.m, pairs)
  {
    ParsingUndoesPrinting(b);
    var m := Meaning(b.es, map[]);
    forall k | 0 <= k < |pairs| ensures pairs[k] == (b.es[k].Locale(), b.es[k].Text()) {
      WritesIff(b.es[k], pairs[k]);
    }
    forall k | 0 <= k < |pairs| && (forall j :: k < j < |pairs| ==> pairs[j].0 != pairs[k].0)
      ensures pairs[k].0 in m && m[pairs[k].0] == pairs[k].1
    {
      assert LastFor(b.es, k);
      MeaningHas(b.es, k, map[]);
    }
    forall locale | locale in m
      ensures exists k :: 0 <= k < |pairs| && pairs[k].0 == locale
    {
      if forall k :: 0 <= k < |pairs| ==> pairs[k].0 != locale {
        MeaningKeeps(b.es, map[], locale);
      }
    }
  }

  // ---- every pair can be printed ----------------------------------------------------------------------------------

  function Spelled(text: string, q: char): Quoted
    requires Quote(q)
  {
    UnescapeEscape(text, q);
    Lit(q, Escape(text, q))
  }

  function RespellMore(more: seq<Plus>, texts: seq<string>): seq<Plus>
    requires |more| == |texts|
  {
    if more == [] then []
    else [more[0].(lit := Spelled(texts[0], more[0].lit.q))] + RespellMore(more[1..], texts[1..])
  }

  /** The same layout with other texts, spelled with escapes. */
  function Respell(e: Item, locale: string, text: string, texts: seq<string>): Item
    requires |texts| == |e.more|
  {
    e.(key := Spelled(locale, e.key.q), first := Spelled(text, e.first.q), more := RespellMore(e.more, texts))
  }

  lemma {:induction false} WholeOfRespelled(more: seq<Plus>, texts: seq<string>)
    requires |more| == |texts|
    ensures Whole(RespellMore(more, texts)) == Joined(texts)
    decreases |more|
  {
    if more != [] {
      UnescapeEscape(texts[0], more[0].lit.q);
      WholeOfRespelled(more[1..], texts[1..]);
      assert RespellMore(more, texts)[1..] == RespellMore(more[1..], texts[1..]);
    }
  }

  /** Every locale and every text, cut into pieces in any way, can be put into every layout. */
  lemma EveryPairHasASpelling(e: Item, locale: string, text: string, texts: seq<string>)
    requires |texts| == |e.more|
    ensures Writes(Respell(e, locale, text, texts), (locale, text + Joined(texts)))
  {
    UnescapeEscape(locale, e.key.q);
    UnescapeEscape(text, e.first.q);
    WholeOfRespelled(e.more, texts);
    WritesIff(Respell(e, locale, text, texts), (locale, text + Joined(texts)));
  }

  // ---- what is not read ------------------------------------------------------------------------------------------------

  /** What is neither a comma nor a literal ends the parsing; the entries so far are kept. */
  lemma NoKeyStopsTheParser(es: seq<Item>, g: Gap, s: string, acc: map<string, string>)
    requires Visible(s) && s[0] != ',' && Extract(s).None?
    ensures ParseEntries(PrintItems(es, PrintGap(g, s)), acc) == Entries(Meaning(es, acc))
  {
    ItemsAreRead(es, PrintGap(g, s), acc);
    GapIsSkipped(g, s);
    VisibleStays(s);
    assert NextTurn(PrintGap(g, s)) == Stop;
  }

  /** So does a key with no colon behind it. */
  lemma NoColonStopsTheParser(es: seq<Item>, g: Gap, key: Quoted, rest: string, acc: map<string, string>)
    requires Skip(rest) == "" || Skip(rest)[0] != ':'
    ensures ParseEntries(PrintItems(es, PrintGap(g, PrintLit(key, rest))), acc) == Entries(Meaning(es, acc))
  {
    var keyed := PrintLit(key, rest);
    ItemsAreRead(es, PrintGap(g, keyed), acc);
    GapIsSkipped(g, keyed);
    LitIsRead(key, rest);
    VisibleStays(keyed);
  }

  /** And a value that opens a parameter list which is never closed, although every other
      value is at least skipped. */
  lemma UnclosedParametersStopTheParser(es: seq<Item>, before: Gap, key: Quoted, colon: Gap, value: Gap, s: string,
                                        acc: map<string, string>)
    requires s != "" && s[0] == '(' && forall k: nat :: !Encloses(s, k, '(', ')')
    ensures ParseEntries(PrintItems(es, PrintKey(before, key, colon, value, s)), acc) == Entries(Meaning(es, acc))
  {
    ItemsAreRead(es, PrintKey(before, key, colon, value, s), acc);
    KeyIsRead(before, key, colon, value, s);
    VisibleStays(s);
    if Match(s, 0, '(', ')').Some? {
      MatchIsBalanced(s, Match(s, 0, '(', ')').value, '(', ')');
    }
  }

  /** And a parameter list that no arrow follows. */
  lemma MissingArrowStopsTheParser(es: seq<Item>, before: Gap, key: Quoted, colon: Gap, value: Gap, params: Params, rest: string,
                                   acc: map<string, string>)
    requires !StartsWith(Skip(rest), "=>")
    ensures ParseEntries(PrintItems(es, PrintKey(before, key, colon, value, ['('] + Print(params, '(', ')') + [')'] + rest)), acc)
         == Entries(Meaning(es, acc))
  {
    var p := Print(params, '(', ')');
    var s := ['('] + p + [')'] + rest;
    ItemsAreRead(es, PrintKey(before, key, colon, value, s), acc);
    KeyIsRead(before, key, colon, value, s);
    VisibleStays(s);
    MatchesBalanced(params, rest, '(', ')');
    assert s[|p| + 2..] == rest;
  }

  /** Literals side by side with no `+` are not joined: the value ends before the second
      one, and that one, not being a key, ends the parsing. */
  lemma AdjacentLiteralsStopTheParser(es: seq<Item>, e: Item, l: Quoted, rest: string, acc: map<string, string>)
    requires Skip(rest) == "" || Skip(rest)[0] != ':'
    ensures ParseEntries(PrintItems(es, PrintItem(e, PrintLit(l, rest))), acc)
         == Entries(Meaning(es, acc)[e.Locale() := e.Text()])
  {
    var side := PrintLit(l, rest);
    LitIsRead(l, rest);
    VisibleStays(side);
    ItemsAreRead(es, PrintItem(e, side), acc);
    ItemIsRead(e, side);
    NoColonStopsTheParser([], [], l, rest, Meaning(es, acc)[e.Locale() := e.Text()]);
  }

  /** Whatever follows, the value read is the joined text if and only if the second literal is
      empty: that literal is left for the next turn, which reads it as a key. */
  lemma AdjacentLiteralsAreJoinedIff(es: seq<Item>, e: Item, l: Quoted, rest: string, acc: map<string, string>)
    ensures var t := NextTurn(PrintItem(e, PrintLit(l, rest)));
            && t == Entry(e.Locale(), e.Text(), PrintLit(l, rest))
            && (t.text == e.Text() + Unescape(l.raw) <==> l.raw == "")
    ensures ParseEntries(PrintItems(es, PrintItem(e, PrintLit(l, rest))), acc)
         == ParseEntries(PrintLit(l, rest), Meaning(es, acc)[e.Locale() := e.Text()])
  {
    var side := PrintLit(l, rest);
    LitIsRead(l, rest);
    VisibleStays(side);
    ItemIsRead(e, side);
    ItemsAreRead(es, PrintItem(e, side), acc);
    assert l.raw != "" ==> |Unescape(l.raw)| > 0;
    assert e.Text() + "" == e.Text();
    assert |e.Text() + Unescape(l.raw)| == |e.Text()| + |Unescape(l.raw)|;
  }

  /** If no colon follows it is no key either, and the value stays as it is. */
  lemma AdjacentLiteralsAreNeverJoined(es: seq<Item>, e: Item, l: Quoted, rest: string)
    requires Skip(rest) == "" || Skip(rest)[0] != ':'
    ensures var r := ParseEntries(PrintItems(es, PrintItem(e, PrintLit(l, rest))), map[]);
            r.Entries? && e.Locale() in r.m &&
            (r.m[e.Locale()] == e.Text() + Unescape(l.raw) <==> l.raw == "")
  {
    AdjacentLiteralsStopTheParser(es, e, l, rest, map[]);
    AdjacentLiteralsAreJoinedIff(es, e, l, rest, map[]);
  }

  /** A key whose colon is followed by nothing but space, behind any entries, makes the
      parser index beyond the end. */
  lemma DanglingKeyCrashes(es: seq<Item>, before: Gap, key: Quoted, colon: Gap, last: Gap, acc: map<string, string>)
    ensures ParseEntries(PrintItems(es, PrintKey(before, key, colon, last, "")), acc) == IndexError
  {
    ItemsAreRead(es, PrintKey(before, key, colon, last, ""), acc);
    KeyIsRead(before, key, colon, last, "");
  }
}
