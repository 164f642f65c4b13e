/** The hand-written lexer for Dart source: what each routine does with the text from a
    position on, the loops that do it by index, and what they recognise. */
module DartLexer {
  import opened Common

  // ---- escapes ------------------------------------------------------------------------------

  /** What the character after a backslash stands for. */
  function Escaped(c: char): char {
    match c
    case 'n' => '\n'
    case 'r' => '\r'
    case 't' => '\t'
    case _ => c
  }

  /** The text a literal's body stands for; a trailing backslash stands for itself. */
  function Unescape(s: string): string {
    if s == "" then ""
    else if s[0] == '\\' && |s| > 1 then [Escaped(s[1])] + Unescape(s[2..])
    else [s[0]] + Unescape(s[1..])
  }

  /** One turn of the loop below: how many characters are read and what they stand for. */
  lemma UnescapeStep(s: string, i: nat)
    requires i < |s|
    ensures s[i] == '\\' && i + 1 < |s| ==> Unescape(s[i..]) == [Escaped(s[i + 1])] + Unescape(s[i + 2..])
    ensures !(s[i] == '\\' && i + 1 < |s|) ==> Unescape(s[i..]) == [s[i]] + Unescape(s[i + 1..])
  {
    assert s[i..][1..] == s[i + 1..];
    if i + 1 < |s| {
      assert s[i..][2..] == s[i + 2..];
    }
  }

  lemma Assoc(a: string, b: string, c: string)
    ensures a + (b + c) == a + b + c
  {
  }

  /** A spelling of any text inside quotes `q`: quotes and backslashes are escaped. */
  function Escape(text: string, q: char): string {
    if text == "" then ""
    else (if text[0] == q || text[0] == '\\' then ['\\', text[0]] else [text[0]]) + Escape(text[1..], q)
  }

  predicate Quote(c: char) {
    c == '\'' || c == '"'
  }

  lemma {:induction false} UnescapeEscape(text: string, q: char)
    requires Quote(q)
    ensures Unescape(Escape(text, q)) == text
    ensures WellQuoted(Escape(text, q), q)
    decreases |text|
  {
    if text != "" {
      UnescapeEscape(text[1..], q);
      var e := Escape(text, q);
      if text[0] == q || text[0] == '\\' {
        assert e[2..] == Escape(text[1..], q);
      } else {
        assert e[1..] == Escape(text[1..], q);
      }
    }
  }

  /** `w` is a way to write the character `c` between quotes `q`: the character itself, unless
      it is that quote or a backslash; a backslash and the character, unless the two are
      `\\n`, `\\r` or `\\t`; and these three for line feed, carriage return and tab. */
  predicate Spells(w: string, c: char, q: char) {
    || (w == [c] && c != q && c != '\\')
    || (w == ['\\', c] && c != 'n' && c != 'r' && c != 't')
    || (w == ['\\', 'n'] && c == '\n')
    || (w == ['\\', 'r'] && c == '\r')
    || (w == ['\\', 't'] && c == '\t')
  }

  /** `raw` is such a spelling of a text, character by character. */
  predicate Spelling(raw: string, text: string, q: char)
    decreases |text|
  {
    if text == "" then raw == ""
    else
      || (|raw| >= 1 && Spells(raw[..1], text[0], q) && Spelling(raw[1..], text[1..], q))
      || (|raw| >= 2 && Spells(raw[..2], text[0], q) && Spelling(raw[2..], text[1..], q))
  }

  /** The first character of a body and what is left behind it. */
  lemma FirstSpelt(raw: string, q: char)
    requires raw != "" && WellQuoted(raw, q) && (q == '\'' || q == '"')
    ensures var k := if raw[0] == '\\' then 2 else 1;
            && k <= |raw| && WellQuoted(raw[k..], q) && Unescape(raw) != "" && Unescape(raw)[1..] == Unescape(raw[k..])
            && forall c :: Spells(raw[..k], c, q) <==> c == Unescape(raw)[0]
  {
    if raw[0] == '\\' {
      assert raw[..2] == ['\\', raw[1]];
    } else {
      assert raw[..1] == [raw[0]];
    }
  }

  /** One character spelt in front of a body. */
  lemma SpeltInFront(raw: string, k: nat, c: char, q: char)
    requires 1 <= k <= 2 && k <= |raw| && Spells(raw[..k], c, q) && (q == '\'' || q == '"')
    ensures k == if raw[0] == '\\' then 2 else 1
    ensures WellQuoted(raw, q) <==> WellQuoted(raw[k..], q)
  {
    assert raw[..k][0] == raw[0];
  }

  /** Every spelling of a text is well quoted and unescapes to it, and nothing else does. */
  lemma {:induction false} SpellingIff(raw: string, text: string, q: char)
    requires q == '\'' || q == '"'
    ensures Spelling(raw, text, q) <==> WellQuoted(raw, q) && Unescape(raw) == text
    decreases |raw|
  {
    if raw != "" {
      var k := if raw[0] == '\\' then 2 else 1;
      if text == "" || k > |raw| {
        SpellsNothing(raw, text, q);
      } else {
        SpellingIff(raw[k..], text[1..], q);
        SpellingStep(raw, text, k, q);
      }
    }
  }

  lemma SpellsNothing(raw: string, text: string, q: char)
    requires raw != "" && (q == '\'' || q == '"') && (text == "" || raw == ['\\'])
    ensures !Spelling(raw, text, q) && !(WellQuoted(raw, q) && Unescape(raw) == text)
  {
    if text != "" {
      assert raw[..1] == ['\\'];
    }
  }

  lemma SpellingStep(raw: string, text: string, k: nat, q: char)
    requires raw != "" && text != "" && k <= |raw| && k == (if raw[0] == '\\' then 2 else 1) && (q == '\'' || q == '"')
    requires Spelling(raw[k..], text[1..], q) <==> WellQuoted(raw[k..], q) && Unescape(raw[k..]) == text[1..]
    ensures Spelling(raw, text, q) <==> WellQuoted(raw, q) && Unescape(raw) == text
  {
    if Spelling(raw, text, q) {
      if |raw| >= 1 && Spells(raw[..1], text[0], q) && Spelling(raw[1..], text[1..], q) {
        SpeltInFront(raw, 1, text[0], q);
      } else {
        SpeltInFront(raw, 2, text[0], q);
      }
      FirstSpelt(raw, q);
      assert text == [text[0]] + text[1..];
    }
    if WellQuoted(raw, q) && Unescape(raw) == text {
      FirstSpelt(raw, q);
    }
  }

  /** A backslash at the very end stands for itself. */
  lemma {:induction false} TrailingBackslashStays(raw: string, q: char)
    requires WellQuoted(raw, q)
    ensures Unescape(raw + ['\\']) == Unescape(raw) + ['\\']
    decreases |raw|
  {
    var s := raw + ['\\'];
    if raw == "" {
      assert s == ['\\'];
    } else if raw[0] == '\\' {
      TrailingBackslashStays(raw[2..], q);
      assert s[2..] == raw[2..] + ['\\'];
    } else {
      TrailingBackslashStays(raw[1..], q);
      assert s[1..] == raw[1..] + ['\\'];
    }
  }

  method UnescapeDartString(s: string) returns (out: string)
    ensures out == Unescape(s)
    ensures forall text, q | (q == '\'' || q == '"') && Spelling(s, text, q) :: out == text
  {
    forall text, q | (q == '\'' || q == '"') && Spelling(s, text, q) ensures Unescape(s) == text {
      SpellingIff(s, text, q);
    }
    out := "";
    var i := 0;
    assert s[0..] == s;
    while i < |s|
      invariant 0 <= i <= |s|
      invariant Unescape(s) == out + Unescape(s[i..])
    {
      UnescapeStep(s, i);
      if s[i] == '\\' && i + 1 < |s| {
        Assoc(out, [Escaped(s[i + 1])], Unescape(s[i + 2..]));
        out := out + [Escaped(s[i + 1])];
        i := i + 2;
        continue;
      }
      Assoc(out, [s[i]], Unescape(s[i + 1..]));
      out := out + [s[i]];
      i := i + 1;
    }
  }

  // ---- string literals --------------------------------------------------------------------------

  datatype Literal = Literal(raw: string, rest: string)

  /** A body that closes only where it is meant to: every backslash has its character and
      no bare quote occurs. */
  predicate WellQuoted(raw: string, q: char) {
    raw == "" ||
    if raw[0] == '\\' then |raw| > 1 && WellQuoted(raw[2..], q)
    else raw[0] != q && WellQuoted(raw[1..], q)
  }

  /** The body up to the closing quote, and the text behind it. */
  function ScanBody(s: string, q: char): Option<Literal> {
    if s == "" then None
    else if s[0] == '\\' && |s| > 1 then Longer(s[..2], ScanBody(s[2..], q))
    else if s[0] == q then Some(Literal("", s[1..]))
    else Longer(s[..1], ScanBody(s[1..], q))
  }

  function Longer(start: string, l: Option<Literal>): Option<Literal> {
    if l.None? then None else Some(Literal(start + l.value.raw, l.value.rest))
  }

  lemma LongerTwice(a: string, b: string, l: Option<Literal>)
    ensures Longer("", l) == l
    ensures Longer(a, Longer(b, l)) == Longer(a + b, l)
  {
    if l.Some? {
      assert "" + l.value.raw == l.value.raw;
      assert a + (b + l.value.raw) == a + b + l.value.raw;
    }
  }

  /** The literal at the beginning of a text. */
  function Extract(s: string): Option<Literal> {
    if s == "" || !Quote(s[0]) then None else ScanBody(s[1..], s[0])
  }

  lemma LongerSplits(s: string, k: nat, raw: string, q: char, rest: string)
    requires k <= |s| && s[k..] == raw + [q] + rest
    ensures s == s[..k] + raw + [q] + rest && (s[..k] + raw)[k..] == raw
  {
    assert s == s[..k] + s[k..];
  }

  lemma {:induction false} ScanSplits(s: string, q: char)
    requires ScanBody(s, q).Some? && q != '\\'
    ensures var l := ScanBody(s, q).value; WellQuoted(l.raw, q) && s == l.raw + [q] + l.rest
    decreases |s|
  {
    if s[0] == '\\' && |s| > 1 {
      ScanSplits(s[2..], q);
      var l := ScanBody(s[2..], q).value;
      LongerSplits(s, 2, l.raw, q, l.rest);
    } else if s[0] == q {
      assert s == "" + [q] + s[1..];
    } else {
      ScanSplits(s[1..], q);
      var l := ScanBody(s[1..], q).value;
      LongerSplits(s, 1, l.raw, q, l.rest);
    }
  }

  lemma {:induction false} ScanReads(raw: string, q: char, rest: string)
    requires q != '\\' && WellQuoted(raw, q)
    ensures ScanBody(raw + [q] + rest, q) == Some(Literal(raw, rest))
    decreases |raw|
  {
    var s := raw + [q] + rest;
    if raw == "" {
      assert s[1..] == rest;
    } else if raw[0] == '\\' {
      ScanReads(raw[2..], q, rest);
      assert s[2..] == raw[2..] + [q] + rest && s[..2] == raw[..2];
      assert raw[..2] + raw[2..] == raw;
    } else {
      ScanReads(raw[1..], q, rest);
      assert s[1..] == raw[1..] + [q] + rest && s[..1] == [raw[0]];
      assert [raw[0]] + raw[1..] == raw;
    }
  }

  /** Extraction is exactly recognition: a literal is split off if and only if the text
      begins with a quote, a well-quoted body and the same quote again. */
  lemma ExtractIsRecognition(s: string, l: Literal)
    ensures Extract(s) == Some(l) <==>
            s != "" && (s[0] == '\'' || s[0] == '"') && WellQuoted(l.raw, s[0]) && s == [s[0]] + l.raw + [s[0]] + l.rest
  {
    if s != "" && Quote(s[0]) {
      if Extract(s) == Some(l) {
        ScanSplits(s[1..], s[0]);
      }
      if WellQuoted(l.raw, s[0]) && s == [s[0]] + l.raw + [s[0]] + l.rest {
        assert s[1..] == l.raw + [s[0]] + l.rest;
        ScanReads(l.raw, s[0], l.rest);
      }
    }
  }

  /** `t` is what is left of `s` from some position on. */
  predicate Tail(t: string, s: string) {
    |t| <= |s| && s[|s| - |t|..] == t
  }

  lemma ExtractIsTail(s: string)
    ensures Extract(s).Some? ==> Tail(Extract(s).value.rest, s) && |Extract(s).value.rest| < |s|
  {
    if Extract(s).Some? {
      ScanSplits(s[1..], s[0]);
    }
  }

  method ExtractStringLiteral(src: string, start: nat) returns (r: Option<(string, nat)>)
    ensures start > |src| ==> r.None?
    ensures start <= |src| ==>
              match r
              case None => Extract(src[start..]).None?
              case Some((raw, end)) => start < end <= |src| && Extract(src[start..]) == Some(Literal(raw, src[end..]))
  {
    if start >= |src| || !Quote(src[start]) {
      return None;
    }
    var q := src[start];
    var i := start + 1;
    var raw := "";
    ghost var all := ScanBody(src[i..], q);
    assert src[start..][1..] == src[i..];
    LongerTwice("", "", all);
    while i < |src|
      invariant start < i <= |src|
      invariant all == Longer(raw, ScanBody(src[i..], q))
    {
      var ch := src[i];
      if ch == '\\' && i + 1 < |src| {
        assert src[i..][2..] == src[i + 2..] && src[i..][..2] == src[i..i + 2];
        LongerTwice(raw, src[i..i + 2], ScanBody(src[i + 2..], q));
        raw := raw + src[i..i + 2];
        i := i + 2;
        continue;
      }
      assert src[i..][1..] == src[i + 1..] && src[i..][..1] == [ch];
      LongerTwice(raw, [ch], ScanBody(src[i + 1..], q));
      if ch == q {
        assert raw + "" == raw;
        return Some((raw, i + 1));
      }
      raw := raw + [ch];
      i := i + 1;
    }
    r := None;
  }

  // ---- white space and comments -----------------------------------------------------------------

  predicate White(c: char) {
    c == ' ' || c == '\t' || c == '\r' || c == '\n'
  }

  predicate StartsWith(s: string, p: string) {
    |p| <= |s| && s[..|p|] == p
  }

  /** Behind the end of the line. */
  function AfterLine(s: string): (r: string)
    ensures |r| <= |s|
  {
    if s == "" then "" else if s[0] == '\n' then s[1..] else AfterLine(s[1..])
  }

  /** Behind the first end-of-comment mark. */
  function AfterBlock(s: string): (r: string)
    ensures |r| <= |s|
  {
    if |s| < 2 then "" else if s[0] == '*' && s[1] == '/' then s[2..] else AfterBlock(s[1..])
  }

  /** Behind all white space and comments. */
  function Skip(s: string): (r: string)
    ensures |r| <= |s|
    decreases |s|
  {
    if s == "" then ""
    else if White(s[0]) then Skip(s[1..])
    else if StartsWith(s, "//") then
      assert s[..2][0] == '/';
      Skip(AfterLine(s))
    else if StartsWith(s, "/*") then Skip(AfterBlock(s[2..]))
    else s
  }

  /** src.find(c, from) + 1, or the length if there is none. */
  method PastChar(src: string, from: nat) returns (next: nat)
    requires from <= |src|
    ensures from <= next <= |src| && src[next..] == AfterLine(src[from..])
  {
    next := from;
    while next < |src|
      invariant from <= next <= |src| && AfterLine(src[next..]) == AfterLine(src[from..])
    {
      assert src[next..][1..] == src[next + 1..];
      if src[next] == '\n' {
        next := next + 1;
        return;
      }
      next := next + 1;
    }
  }

  /** src.find of the end-of-comment mark, plus two, or the length if there is none. */
  method PastMark(src: string, from: nat) returns (next: nat)
    requires from <= |src|
    ensures from <= next <= |src| && src[next..] == AfterBlock(src[from..])
  {
    next := from;
    while next + 1 < |src|
      invariant from <= next <= |src| && AfterBlock(src[next..]) == AfterBlock(src[from..])
    {
      assert src[next..][1..] == src[next + 1..] && src[next..][2..] == src[next + 2..];
      if src[next] == '*' && src[next + 1] == '/' {
        next := next + 2;
        return;
      }
      next := next + 1;
    }
    next := |src|;
  }

  lemma SkipStep(src: string, i: nat)
    requires i < |src|
    ensures White(src[i]) ==> Skip(src[i..]) == Skip(src[i + 1..])
    ensures !White(src[i]) && StartsWith(src[i..], "//") ==> Skip(src[i..]) == Skip(AfterLine(src[i..]))
    ensures !White(src[i]) && StartsWith(src[i..], "/*") ==> Skip(src[i..]) == Skip(AfterBlock(src[i + 2..]))
    ensures !White(src[i]) && !StartsWith(src[i..], "//") && !StartsWith(src[i..], "/*") ==> Skip(src[i..]) == src[i..]
  {
    assert src[i..][1..] == src[i + 1..];
    if StartsWith(src[i..], "/*") {
      assert src[i..][..2][1] == '*';
      assert src[i..][2..] == src[i + 2..];
    }
  }

  /** Beyond the end there is nothing to skip. */
  method SkipWsAndComments(src: string, start: nat) returns (i: nat)
    ensures start > |src| ==> i == start
    ensures start <= |src| ==> start <= i <= |src| && src[i..] == Skip(src[start..])
  {
    i := start;
    var n := |src|;
    if start > n {
      return;
    }
    ghost var all := Skip(src[start..]);
    while i < n
      invariant start <= i <= n && Skip(src[i..]) == all
      decreases n - i
    {
      SkipStep(src, i);
      if White(src[i]) {
        i := i + 1;
        continue;
      }
      if StartsWith(src[i..], "//") {
        i := PastLine(src, i);
        continue;
      }
      if StartsWith(src[i..], "/*") {
        i := PastMark(src, i + 2);
        continue;
      }
      return;
    }
  }

  /** A line comment at `from` ends strictly later. */
  method PastLine(src: string, from: nat) returns (next: nat)
    requires from < |src|
    ensures from < next <= |src| && src[next..] == AfterLine(src[from..])
  {
    next := PastChar(src, from);
    if next == from {
      assert src[from..] == AfterLine(src[from..]);
      ShorterLine(src[from..]);
    }
  }

  lemma {:induction false} ShorterLine(s: string)
    requires s != ""
    ensures |AfterLine(s)| < |s|
  {
  }

  // ---- matching brackets ---------------------------------------------------------------------------

  /** How far on the bracket closes that brings the depth to zero; brackets in literals do
      not count, and an unterminated literal ends the search. */
  function Match(s: string, depth: int, open: char, close: char): Option<nat>
    decreases |s|
  {
    if s == "" then None
    else if Quote(s[0]) then
      ExtractIsTail(s);
      match Extract(s)
      case None => None
      case Some(l) => Further(|s| - |l.rest|, Match(l.rest, depth, open, close))
    else if s[0] == open then Further(1, Match(s[1..], depth + 1, open, close))
    else if s[0] == close then
      if depth - 1 == 0 then Some(0) else Further(1, Match(s[1..], depth - 1, open, close))
    else Further(1, Match(s[1..], depth, open, close))
  }

  lemma {:induction false} MatchIsInside(s: string, depth: int, open: char, close: char)
    ensures Match(s, depth, open, close).Some? ==> Match(s, depth, open, close).value < |s|
    decreases |s|
  {
    if s != "" {
      if Quote(s[0]) {
        ExtractIsTail(s);
        if Extract(s).Some? {
          MatchIsInside(Extract(s).value.rest, depth, open, close);
        }
      } else {
        MatchIsInside(s[1..], if s[0] == open then depth + 1 else if s[0] == close then depth - 1 else depth, open, close);
      }
    }
  }

  function Further(n: nat, at: Option<nat>): Option<nat> {
    if at.None? then None else Some(n + at.value)
  }

  /** One turn of the loop below, at a character that is no quote. */
  lemma MatchStep(src: string, i: nat, depth: int, open: char, close: char)
    requires i < |src| && !Quote(src[i])
    ensures src[i] == open ==> Match(src[i..], depth, open, close) == Further(1, Match(src[i + 1..], depth + 1, open, close))
    ensures src[i] != open && src[i] == close ==>
              Match(src[i..], depth, open, close)
                == if depth == 1 then Some(0) else Further(1, Match(src[i + 1..], depth - 1, open, close))
    ensures src[i] != open && src[i] != close ==>
              Match(src[i..], depth, open, close) == Further(1, Match(src[i + 1..], depth, open, close))
  {
    assert src[i..][1..] == src[i + 1..];
  }

  lemma FurtherTwice(a: nat, b: nat, at: Option<nat>)
    ensures Further(a, Further(b, at)) == Further(a + b, at)
    ensures Further(0, at) == at
  {
  }

  method FindMatching(src: string, openIdx: nat, open: char, close: char) returns (r: int)
    ensures openIdx > |src| ==> r == -1
    ensures openIdx <= |src| ==>
              match Match(src[openIdx..], 0, open, close)
              case None => r == -1
              case Some(k) => r == openIdx + k < |src|
  {
    var depth := 0;
    var i := openIdx;
    var n := |src|;
    if openIdx > n {
      return -1;
    }
    ghost var all := Match(src[openIdx..], 0, open, close);
    while i < n
      invariant openIdx <= i <= n
      invariant all == Further(i - openIdx, Match(src[i..], depth, open, close))
      decreases n - i
    {
      var ch := src[i];
      if Quote(ch) {
        var lit := ExtractStringLiteral(src, i);
        if lit.None? {
          return -1;
        }
        FurtherTwice(i - openIdx, lit.value.1 - i, Match(src[lit.value.1..], depth, open, close));
        i := lit.value.1;
        continue;
      }
      MatchStep(src, i, depth, open, close);
      FurtherTwice(i - openIdx, 1, Match(src[i + 1..], if ch == open then depth + 1 else if ch == close then depth - 1 else depth, open, close));
      if ch == open {
        depth := depth + 1;
      } else if ch == close {
        depth := depth - 1;
        if depth == 0 {
          return i;
        }
      }
      i := i + 1;
    }
    r := -1;
  }

  /** Text in which brackets are balanced, literals counting as one piece. */
  datatype Text =
    | End
    | Ch(c: char, more: Text)
    | Str(q: char, raw: string, more: Text)
    | Nest(inner: Text, more: Text)

  predicate Balanced(t: Text, open: char, close: char) {
    match t
    case End => true
    case Ch(c, more) => c != '\'' && c != '"' && c != open && c != close && Balanced(more, open, close)
    case Str(q, raw, more) => (q == '\'' || q == '"') && WellQuoted(raw, q) && Balanced(more, open, close)
    case Nest(inner, more) => Balanced(inner, open, close) && Balanced(more, open, close)
  }

  function Print(t: Text, open: char, close: char): string {
    match t
    case End => ""
    case Ch(c, more) => [c] + Print(more, open, close)
    case Str(q, raw, more) => [q] + raw + [q] + Print(more, open, close)
    case Nest(inner, more) => [open] + Print(inner, open, close) + [close] + Print(more, open, close)
  }

  predicate Brackets(open: char, close: char) {
    open != close && !Quote(open) && !Quote(close)
  }

  lemma Framed(a: char, p: string, b: char, r: string)
    ensures ([a] + p + [b] + r)[1..] == p + ([b] + r)
    ensures ([b] + r)[1..] == r
    ensures ([a] + (p + ([b] + r)))[1..] == p + ([b] + r)
    ensures ([a] + (p + ([b] + r)))[..|p| + 2] == [a] + p + [b]
    ensures [a] + p + [b] + r == [a] + (p + ([b] + r))
  {
  }

  lemma Pushed(c: char, rest: string)
    ensures ([c] + rest)[0] == c && ([c] + rest)[1..] == rest
  {
  }

  lemma Regrouped(a: string, b: string, c: string, d: string)
    ensures a + (b + c) == a + b + c && a + b + c + d == a + (b + (c + d)) == a + b + (c + d)
  {
  }

  lemma Piece(a: char, p: string, b: string, m: string, rest: string)
    ensures ([a] + p + b + m + rest)[0] == a
    ensures ([a] + p + b + m + rest)[1..] == p + (b + (m + rest)) == p + b + (m + rest)
    ensures ([a] + m + rest)[0] == a
    ensures ([a] + m + rest)[1..] == m + rest
  {
  }

  /** The head of a printed text and what follows it. */
  lemma PrintedHead(t: Text, rest: string, open: char, close: char)
    requires !t.End?
    ensures Print(t, open, close) + rest != ""
    ensures t.Ch? ==> (Print(t, open, close) + rest)[0] == t.c
    ensures t.Ch? ==> (Print(t, open, close) + rest)[1..] == Print(t.more, open, close) + rest
    ensures t.Str? ==> (Print(t, open, close) + rest)[0] == t.q
    ensures t.Str? ==> (Print(t, open, close) + rest)[1..] == t.raw + [t.q] + (Print(t.more, open, close) + rest)
    ensures t.Nest? ==> (Print(t, open, close) + rest)[0] == open
    ensures t.Nest? ==> (Print(t, open, close) + rest)[1..]
                        == Print(t.inner, open, close) + ([close] + (Print(t.more, open, close) + rest))
  {
    var more := Print(t.more, open, close);
    match t
    case Ch(c, _) => Piece(c, "", "", more, rest);
    case Str(q, raw, _) => Piece(q, raw, [q], more, rest);
    case Nest(inner, _) => Piece(open, Print(inner, open, close), [close], more, rest);
  }

  lemma StringPasses(s: string, q: char, raw: string, tail: string, depth: nat, open: char, close: char)
    requires Quote(q) && WellQuoted(raw, q) && s != "" && s[0] == q && s[1..] == raw + [q] + tail
    ensures |s| == |raw| + 2 + |tail| && Extract(s) == Some(Literal(raw, tail))
    ensures Match(s, depth, open, close) == Further(|raw| + 2, Match(tail, depth, open, close))
  {
    ScanReads(raw, q, tail);
    assert |s| == 1 + |s[1..]|;
  }

  lemma NestPasses(s: string, p: string, tail: string, depth: nat, open: char, close: char)
    requires Brackets(open, close) && depth >= 1 && s != "" && s[0] == open && s[1..] == p + ([close] + tail)
    requires Match(p + ([close] + tail), depth + 1, open, close) == Further(|p|, Match([close] + tail, depth + 1, open, close))
    ensures Match(s, depth, open, close) == Further(|p| + 2, Match(tail, depth, open, close))
  {
    Pushed(close, tail);
    FurtherTwice(|p|, 1, Match(tail, depth, open, close));
    FurtherTwice(1, |p| + 1, Match(tail, depth, open, close));
  }

  /** Balanced text is passed over without a change of depth. */
  lemma {:induction false} MatchPasses(t: Text, rest: string, depth: nat, open: char, close: char)
    requires Brackets(open, close) && Balanced(t, open, close) && depth >= 1
    ensures Match(Print(t, open, close) + rest, depth, open, close)
         == Further(|Print(t, open, close)|, Match(rest, depth, open, close))
    decreases t
  {
    var s := Print(t, open, close) + rest;
    if t.End? {
      assert s == rest;
    } else {
      var tail := Print(t.more, open, close) + rest;
      PrintedHead(t, rest, open, close);
      MatchPasses(t.more, rest, depth, open, close);
      match t
      case Ch(_, _) =>
        FurtherTwice(1, |Print(t.more, open, close)|, Match(rest, depth, open, close));
      case Str(q, raw, _) =>
        StringPasses(s, q, raw, tail, depth, open, close);
        FurtherTwice(|raw| + 2, |Print(t.more, open, close)|, Match(rest, depth, open, close));
      case Nest(inner, _) =>
        MatchPasses(inner, [close] + tail, depth + 1, open, close);
        NestPasses(s, Print(inner, open, close), tail, depth, open, close);
        FurtherTwice(|Print(inner, open, close)| + 2, |Print(t.more, open, close)|, Match(rest, depth, open, close));
    }
  }

  /** What comes before the closing bracket, as balanced text, if there is one. */
  ghost function Inside(s: string, open: char, close: char): Option<(Text, string)>
    ensures Inside(s, open, close).Some? ==> |Inside(s, open, close).value.1| < |s|
    decreases |s|
  {
    if s == "" then None
    else if Quote(s[0]) then
      ExtractIsTail(s);
      match Extract(s)
      case None => None
      case Some(l) =>
        match Inside(l.rest, open, close)
        case None => None
        case Some((t, r)) => Some((Str(s[0], l.raw, t), r))
    else if s[0] == open then
      match Inside(s[1..], open, close)
      case None => None
      case Some((inner, r)) =>
        match Inside(r, open, close)
        case None => None
        case Some((t, r')) => Some((Nest(inner, t), r'))
    else if s[0] == close then Some((End, s[1..]))
    else
      match Inside(s[1..], open, close)
      case None => None
      case Some((t, r)) => Some((Ch(s[0], t), r))
  }

  lemma NestMatches(s: string, inner: Text, tail: string, depth: nat, open: char, close: char)
    requires Brackets(open, close) && Balanced(inner, open, close) && depth >= 1
    requires s != "" && s[0] == open && s[1..] == Print(inner, open, close) + tail
    requires tail != "" && tail[0] == close
    ensures Match(s, depth, open, close) == Further(|Print(inner, open, close)| + 2, Match(tail[1..], depth, open, close))
  {
    MatchPasses(inner, tail, depth + 1, open, close);
  }

  lemma NestPrints(s: string, inner: Text, t: Text, after: string, r: string, open: char, close: char)
    requires s != "" && s[0] == open && s[1..] == Print(inner, open, close) + [close] + after
    requires after == Print(t, open, close) + [close] + r
    ensures s == Print(Nest(inner, t), open, close) + [close] + r
  {
    Regrouped([open] + Print(inner, open, close), [close], Print(t, open, close), [close] + r);
    assert s == [open] + s[1..];
  }

  lemma LiteralPrints(s: string, l: Literal, t: Text, r: string, open: char, close: char)
    requires Extract(s) == Some(l) && l.rest == Print(t, open, close) + [close] + r
    ensures Quote(s[0]) && WellQuoted(l.raw, s[0])
    ensures s == Print(Str(s[0], l.raw, t), open, close) + [close] + r
  {
    ExtractIsRecognition(s, l);
    Regrouped([s[0]] + l.raw + [s[0]], Print(t, open, close), [close], r);
  }

  lemma {:induction false} InsideSplits(s: string, open: char, close: char)
    requires Brackets(open, close) && Inside(s, open, close).Some?
    ensures var (t, r) := Inside(s, open, close).value;
            Balanced(t, open, close) && s == Print(t, open, close) + [close] + r
    decreases |s|
  {
    if Quote(s[0]) {
      ExtractIsTail(s);
      var l := Extract(s).value;
      InsideSplits(l.rest, open, close);
      var (t, r) := Inside(l.rest, open, close).value;
      LiteralPrints(s, l, t, r, open, close);
    } else if s[0] == open {
      InsideSplits(s[1..], open, close);
      var inside := Inside(s[1..], open, close).value;
      InsideSplits(inside.1, open, close);
      var after := Inside(inside.1, open, close).value;
      NestPrints(s, inside.0, after.0, inside.1, after.1, open, close);
    } else if s[0] == close {
      assert s == "" + [close] + s[1..];
    } else {
      InsideSplits(s[1..], open, close);
      assert s == [s[0]] + s[1..];
    }
  }

  lemma {:induction false} NotInside(s: string, depth: nat, open: char, close: char)
    requires Brackets(open, close) && Inside(s, open, close).None? && depth >= 1
    ensures Match(s, depth, open, close).None?
    decreases |s|
  {
    if s == "" {
    } else if Quote(s[0]) {
      ExtractIsTail(s);
      if Extract(s).Some? {
        NotInside(Extract(s).value.rest, depth, open, close);
      }
    } else if s[0] == open {
      match Inside(s[1..], open, close)
      case None => NotInside(s[1..], depth + 1, open, close);
      case Some((inner, r)) =>
        InsideSplits(s[1..], open, close);
        NotInside(r, depth, open, close);
        Regrouped(Print(inner, open, close), [close], r, "");
        Pushed(close, r);
        NestMatches(s, inner, [close] + r, depth, open, close);
    } else if s[0] != close {
      NotInside(s[1..], depth, open, close);
    }
  }

  /** The text from an opening bracket to `k` further on is that bracket, balanced text,
      and the bracket that closes it. */
  ghost predicate Encloses(s: string, k: nat, open: char, close: char) {
    k < |s| && exists t :: Balanced(t, open, close) && s[..k + 1] == [open] + Print(t, open, close) + [close]
  }

  /** From an opening bracket, a match is found at `k` if and only if the text up to there
      is balanced between the two; none is found exactly when no such place exists. */
  lemma MatchIsBalanced(s: string, k: nat, open: char, close: char)
    requires Brackets(open, close) && s != "" && s[0] == open
    ensures Match(s, 0, open, close) == Some(k) <==> Encloses(s, k, open, close)
  {
    if Encloses(s, k, open, close) {
      var t :| Balanced(t, open, close) && s[..k + 1] == [open] + Print(t, open, close) + [close];
      assert s == s[..k + 1] + s[k + 1..];
      MatchesBalanced(t, s[k + 1..], open, close);
    }
    if Match(s, 0, open, close) == Some(k) {
      MatchEncloses(s, k, open, close);
    }
  }

  lemma MatchEncloses(s: string, k: nat, open: char, close: char)
    requires Brackets(open, close) && s != "" && s[0] == open && Match(s, 0, open, close) == Some(k)
    ensures Encloses(s, k, open, close)
  {
    if Inside(s[1..], open, close).None? {
      NotInside(s[1..], 1, open, close);
    }
    InsideSplits(s[1..], open, close);
    var (t, r) := Inside(s[1..], open, close).value;
    MatchesBalanced(t, r, open, close);
    Fronted(s, open, Print(t, open, close), close, r);
  }

  lemma Fronted(s: string, a: char, p: string, b: char, r: string)
    requires s != "" && s[0] == a && s[1..] == p + [b] + r
    ensures s == [a] + p + [b] + r && |s| > |p| + 1 && s[..|p| + 2] == [a] + p + [b]
  {
    assert s == [a] + s[1..];
  }

  lemma MatchesBalanced(t: Text, r: string, open: char, close: char)
    requires Brackets(open, close) && Balanced(t, open, close)
    ensures Match([open] + Print(t, open, close) + [close] + r, 0, open, close) == Some(|Print(t, open, close)| + 1)
  {
    Framed(open, Print(t, open, close), close, r);
    MatchPasses(t, [close] + r, 1, open, close);
  }

  /** One text behind another. */
  function Then(t: Text, u: Text): Text {
    match t
    case End => u
    case Ch(c, more) => Ch(c, Then(more, u))
    case Str(q, raw, more) => Str(q, raw, Then(more, u))
    case Nest(inner, more) => Nest(inner, Then(more, u))
  }

  lemma {:induction false} ThenPrints(t: Text, u: Text, open: char, close: char)
    requires Balanced(t, open, close) && Balanced(u, open, close)
    ensures Balanced(Then(t, u), open, close)
    ensures Print(Then(t, u), open, close) == Print(t, open, close) + Print(u, open, close)
    decreases t
  {
    if t.End? {
      assert Print(t, open, close) + Print(u, open, close) == Print(u, open, close);
    } else {
      ThenPrints(t.more, u, open, close);
      match t
      case Ch(c, _) => Assoc([c], Print(t.more, open, close), Print(u, open, close));
      case Str(q, raw, _) => Assoc([q] + raw + [q], Print(t.more, open, close), Print(u, open, close));
      case Nest(inner, _) =>
        Assoc([open] + Print(inner, open, close) + [close], Print(t.more, open, close), Print(u, open, close));
    }
  }

  /** Comments are text like any other: a closing bracket inside one is the match. */
  lemma CommentedBracketCounts(t: Text, rest: string)
    requires Balanced(t, '(', ')')
    ensures Match(['('] + (Print(t, '(', ')') + "/*") + [')'] + rest, 0, '(', ')') == Some(|Print(t, '(', ')')| + 3)
  {
    var mark := Ch('/', Ch('*', End));
    assert Print(mark, '(', ')') == "/*";
    ThenPrints(t, mark, '(', ')');
    MatchesBalanced(Then(t, mark), rest, '(', ')');
  }
}
