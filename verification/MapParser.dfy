/** The parser for the body of a Dart map literal from locales to texts. */
module MapParser {
  import opened Common
  import opened DartLexer

  // ---- one entry -------------------------------------------------------------------------------

  /** Literals read one after the other, and the text behind them. */
  datatype Pieces = Pieces(parts: seq<string>, rest: string)

  function Joined(parts: seq<string>): string {
    if parts == [] then "" else parts[0] + Joined(parts[1..])
  }

  /** What stands next in a value: no literal, one that ends it, or one before a `+`. */
  datatype Piece = Missing(rest: string) | Final(text: string, rest: string) | Joining(text: string, rest: string)

  function NextPiece(s: string): (p: Piece)
    ensures |p.rest| <= |s| && (p.Joining? ==> |p.rest| < |s|)
  {
    var at := Skip(s);
    ExtractIsTail(at);
    match Extract(at)
    case None => Missing(at)
    case Some(l) =>
      var behind := Skip(l.rest);
      if behind != "" && behind[0] == '+' then Joining(Unescape(l.raw), behind[1..])
      else Final(Unescape(l.raw), behind)
  }

  /** The literals at the beginning of a text; only a `+` leads on to the next one. */
  function Parts(s: string): (p: Pieces)
    ensures |p.rest| <= |s|
    decreases |s|
  {
    match NextPiece(s)
    case Missing(rest) => Pieces([], rest)
    case Final(text, rest) => Pieces([text], rest)
    case Joining(text, rest) => Ahead([text], Parts(rest))
  }

  /** From the next comma outside a literal on; an unterminated quote counts as a character. */
  function ToComma(s: string): (r: string)
    ensures |r| <= |s|
    decreases |s|
  {
    if s == "" || s[0] == ',' then s
    else if Quote(s[0]) && Extract(s).Some? then
      ExtractIsTail(s);
      ToComma(Extract(s).value.rest)
    else ToComma(s[1..])
  }

  function PastArrow(s: string): (r: Option<string>)
    ensures r.Some? ==> |r.value| <= |s|
  {
    var arrow := Skip(s);
    if StartsWith(arrow, "=>") then Some(Skip(arrow[2..])) else None
  }

  /** Behind the parameter list and arrow of a lambda, if the value is one. */
  function PastHead(s: string): (r: Option<string>)
    requires s != ""
    ensures r.Some? ==> |r.value| <= |s|
  {
    if s[0] != '(' then Some(s)
    else
      MatchIsInside(s, 0, '(', ')');
      match Match(s, 0, '(', ')')
      case None => None
      case Some(k) => PastArrow(s[k + 1..])
  }

  function PastComma(s: string): (r: string)
    ensures |r| <= |s|
  {
    if s != "" && s[0] == ',' then s[1..] else s
  }

  /** Where the value starts behind a key, if there is a colon. */
  function PastColon(s: string): (r: Option<string>)
    ensures r.Some? ==> |r.value| < |s|
  {
    var colon := Skip(s);
    if colon == "" || colon[0] != ':' then None else Some(Skip(colon[1..]))
  }

  /** What one turn of the parser's loop comes to. */
  datatype Turn =
    | Stop
    | Crash
    | Over(rest: string)
    | Entry(locale: string, text: string, rest: string)

  /** From the value of an entry on. */
  function ValueTurn(locale: string, s: string): (t: Turn)
    requires s != ""
    ensures t.Over? || t.Entry? ==> |t.rest| <= |s|
  {
    match PastHead(s)
    case None => Stop
    case Some(v) =>
      var p := Parts(v);
      if p.parts == [] then Over(ToComma(p.rest))
      else Entry(locale, Joined(p.parts), PastComma(Skip(p.rest)))
  }

  /** From the key of an entry on. */
  function KeyTurn(s: string): (t: Turn)
    ensures t.Over? || t.Entry? ==> |t.rest| < |s|
  {
    ExtractIsTail(s);
    match Extract(s)
    case None => Stop
    case Some(l) =>
      match PastColon(l.rest)
      case None => Stop
      case Some(value) => if value == "" then Crash else ValueTurn(Unescape(l.raw), value)
  }

  function NextTurn(s: string): (t: Turn)
    ensures t.Over? || t.Entry? ==> |t.rest| < |s|
  {
    var at := Skip(s);
    if at == "" then Stop
    else if at[0] == ',' then Over(at[1..])
    else KeyTurn(at)
  }

  // ---- the whole body -----------------------------------------------------------------------------

  /** The dictionary read, or the exception for indexing beyond the end. */
  datatype Outcome = Entries(m: map<string, string>) | IndexError

  function ParseEntries(s: string, acc: map<string, string>): Outcome
    decreases |s|
  {
    match NextTurn(s)
    case Stop => Entries(acc)
    case Crash => IndexError
    case Over(rest) => ParseEntries(rest, acc)
    case Entry(locale, text, rest) => ParseEntries(rest, acc[locale := text])
  }

  // ---- the loops ------------------------------------------------------------------------------------

  method TakePiece(src: string, start: nat) returns (p: Piece, i: nat)
    requires start <= |src|
    ensures start <= i <= |src| && p == NextPiece(src[start..]) && p.rest == src[i..]
  {
    i := SkipWsAndComments(src, start);
    var lit := ExtractStringLiteral(src, i);
    if lit.None? {
      return Missing(src[i..]), i;
    }
    var (raw, end) := lit.value;
    var text := UnescapeDartString(raw);
    i := SkipWsAndComments(src, end);
    if i < |src| && src[i] == '+' {
      assert src[i..][1..] == src[i + 1..];
      return Joining(text, src[i + 1..]), i + 1;
    }
    p := Final(text, src[i..]);
  }

  /** The literals of a value, joined by `+`. */
  method CollectParts(src: string, start: nat) returns (parts: seq<string>, i: nat)
    requires start <= |src|
    ensures start <= i <= |src| && Parts(src[start..]) == Pieces(parts, src[i..])
  {
    parts := [];
    i := start;
    var n := |src|;
    while i < n
      invariant start <= i <= n
      invariant Parts(src[start..]) == Ahead(parts, Parts(src[i..]))
      decreases n - i
    {
      var p;
      p, i := TakePiece(src, i);
      if p.Missing? {
        return;
      }
      AheadTwice(parts, p.text, Parts(p.rest));
      parts := parts + [p.text];
      if p.Final? {
        return;
      }
    }
  }

  function Ahead(parts: seq<string>, p: Pieces): Pieces {
    Pieces(parts + p.parts, p.rest)
  }

  lemma AheadTwice(parts: seq<string>, text: string, p: Pieces)
    ensures Ahead(parts, Ahead([text], p)) == Ahead(parts + [text], p)
  {
    assert parts + ([text] + p.parts) == parts + [text] + p.parts;
  }

  method NextComma(src: string, start: nat) returns (i: nat)
    requires start <= |src|
    ensures start <= i <= |src| && src[i..] == ToComma(src[start..])
  {
    i := start;
    while i < |src| && src[i] != ','
      invariant start <= i <= |src| && ToComma(src[i..]) == ToComma(src[start..])
      decreases |src| - i
    {
      assert src[i..][1..] == src[i + 1..];
      if Quote(src[i]) {
        var lit := ExtractStringLiteral(src, i);
        i := if lit.Some? then lit.value.1 else i + 1;
      } else {
        i := i + 1;
      }
    }
  }

  method SkipArrow(src: string, start: nat) returns (r: Option<nat>)
    requires start <= |src|
    ensures match r
            case None => PastArrow(src[start..]).None?
            case Some(i) => start <= i <= |src| && PastArrow(src[start..]) == Some(src[i..])
  {
    var i := SkipWsAndComments(src, start);
    if !StartsWith(src[i..], "=>") {
      return None;
    }
    assert src[i..][2..] == src[i + 2..];
    i := SkipWsAndComments(src, i + 2);
    r := Some(i);
  }

  /** Past a lambda's head: where its body starts, or nothing if it is malformed. */
  method SkipHead(src: string, start: nat) returns (r: Option<nat>)
    requires start < |src|
    ensures match r
            case None => PastHead(src[start..]).None?
            case Some(i) => start <= i <= |src| && PastHead(src[start..]) == Some(src[i..])
  {
    if src[start] != '(' {
      return Some(start);
    }
    var close := FindMatching(src, start, '(', ')');
    if close < 0 {
      return None;
    }
    assert src[start..][close - start + 1..] == src[close + 1..];
    r := SkipArrow(src, close + 1);
  }

  /** Past the colon behind a key, if there is one. */
  method SkipColon(src: string, start: nat) returns (r: Option<nat>)
    requires start <= |src|
    ensures match r
            case None => PastColon(src[start..]).None?
            case Some(i) => start <= i <= |src| && PastColon(src[start..]) == Some(src[i..])
  {
    var i := SkipWsAndComments(src, start);
    if i >= |src| || src[i] != ':' {
      return None;
    }
    assert src[i..][1..] == src[i + 1..];
    i := SkipWsAndComments(src, i + 1);
    r := Some(i);
  }

  /** The turn from the value on. */
  method TakeValue(body: string, start: nat, locale: string) returns (t: Turn, i: nat)
    requires start < |body|
    ensures start <= i <= |body| && t == ValueTurn(locale, body[start..])
    ensures t.Stop? || ((t.Over? || t.Entry?) && t.rest == body[i..])
  {
    i := start;
    var head := SkipHead(body, start);
    if head.None? {
      return Stop, start;
    }
    var parts;
    parts, i := CollectParts(body, head.value);
    if parts == [] {
      i := NextComma(body, i);
      return Over(body[i..]), i;
    }
    i := SkipWsAndComments(body, i);
    ghost var behind := body[i..];
    assert i < |body| ==> behind[1..] == body[i + 1..];
    if i < |body| && body[i] == ',' {
      i := i + 1;
    }
    t := Entry(locale, Joined(parts), body[i..]);
  }

  /** The turn from the key on. */
  method TakeKey(body: string, start: nat) returns (t: Turn, i: nat)
    requires start < |body|
    ensures start <= i <= |body| && t == KeyTurn(body[start..])
    ensures t.Over? || t.Entry? ==> start < i && t.rest == body[i..]
  {
    i := start;
    var key := ExtractStringLiteral(body, start);
    if key.None? {
      return Stop, start;
    }
    var (raw, end) := key.value;
    var locale := UnescapeDartString(raw);
    var value := SkipColon(body, end);
    if value.None? {
      return Stop, end;
    }
    if value.value >= |body| {
      return Crash, |body|;
    }
    t, i := TakeValue(body, value.value, locale);
  }

  method ParseMapEntries(body: string) returns (r: Outcome)
    ensures r == ParseEntries(body, map[])
  {
    var entries: map<string, string> := map[];
    var i := 0;
    var n := |body|;
    assert body[0..] == body;
    while i < n
      invariant 0 <= i <= n && ParseEntries(body[i..], entries) == ParseEntries(body, map[])
      decreases n - i
    {
      ghost var next := NextTurn(body[i..]);
      i := SkipWsAndComments(body, i);
      if i >= n {
        assert next == Stop;
        break;
      }
      if body[i] == ',' {
        assert body[i..][1..] == body[i + 1..];
        i := i + 1;
        assert next == Over(body[i..]);
        continue;
      }
      var turn;
      turn, i := TakeKey(body, i);
      assert turn == next;
      match turn
      case Stop =>
        break;
      case Crash =>
        return IndexError;
      case Over(_) =>
        continue;
      case Entry(locale, text, _) =>
        entries := entries[locale := text];
    }
    r := Entries(entries);
  }
}
