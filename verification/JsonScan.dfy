/** Finding the first JSON object inside arbitrary text by counting braces outside strings. */
module JsonScan {
  import opened Wrappers

  // ----- the scanner -----

  datatype State = State(depth: int, inString: bool, escaped: bool)

  function Next(s: State, ch: char): State {
    if s.inString then
      if s.escaped then s.(escaped := false)
      else if ch == '\\' then s.(escaped := true)
      else if ch == '"' then s.(inString := false)
      else s
    else if ch == '"' then s.(inString := true)
    else if ch == '{' then s.(depth := s.depth + 1)
    else if ch == '}' then s.(depth := s.depth - 1)
    else s
  }

  predicate Closes(s: State, ch: char) { !s.inString && ch == '}' && s.depth == 1 }

  /** How far the scan runs before the brace that closes it, from a state inside the text. */
  function Scan(text: string, s: State): Option<nat> {
    if text == "" then None
    else if Closes(s, text[0]) then Some(0)
    else
      var rest := Scan(text[1..], Next(s, text[0]));
      if rest.Some? then Some(rest.value + 1) else None
  }

  function FirstBrace(text: string): (at: Option<nat>)
    ensures at.Some? ==> at.value < |text| && text[at.value] == '{'
  {
    if text == "" then None
    else if text[0] == '{' then Some(0)
    else
      var rest := FirstBrace(text[1..]);
      if rest.Some? then Some(rest.value + 1) else None
  }

  lemma {:induction false} ScanIsInside(text: string, s: State)
    ensures Scan(text, s).Some? ==> Scan(text, s).value < |text| && text[Scan(text, s).value] == '}'
  {
    if text != "" { ScanIsInside(text[1..], Next(s, text[0])); }
  }

  /** The text handed to `json.loads`, if the scan finds one. */
  function FirstObject(text: string): Option<string> {
    var start := FirstBrace(text);
    if start.None? then None
    else
      var rest := text[start.value..];
      var end := Scan(rest, State(0, false, false));
      ScanIsInside(rest, State(0, false, false));
      if end.None? then None else Some(rest[..end.value + 1])
  }

  method FindBrace(text: string) returns (at: Option<nat>)
    ensures at == FirstBrace(text)
  {
    for i := 0 to |text|
      invariant FirstBrace(text) == if FirstBrace(text[i..]).Some? then Some(i + FirstBrace(text[i..]).value) else None
    {
      if text[i] == '{' { return Some(i); }
      assert text[i..][1..] == text[i + 1..];
    }
    return None;
  }

  method ExtractFirstJsonObject(text: string) returns (slice: Option<string>)
    ensures slice == FirstObject(text)
  {
    var start := FindBrace(text);
    if start.None? { return None; }
    ghost var rest := text[start.value..];
    ScanIsInside(rest, State(0, false, false));
    var depth, inString, escaped := 0, false, false;
    for i := start.value to |text|
      invariant Scan(rest, State(0, false, false)) ==
                if Scan(text[i..], State(depth, inString, escaped)).Some?
                then Some(i - start.value + Scan(text[i..], State(depth, inString, escaped)).value) else None
    {
      assert text[i..][1..] == text[i + 1..] && text[i..][0] == text[i];
      var ch := text[i];
      if inString {
        if escaped { escaped := false; }
        else if ch == '\\' { escaped := true; }
        else if ch == '"' { inString := false; }
        continue;
      }
      if ch == '"' {
        inString := true;
      } else if ch == '{' {
        depth := depth + 1;
      } else if ch == '}' {
        depth := depth - 1;
        if depth == 0 {
          assert text[start.value..i + 1] == rest[..i + 1 - start.value];
          return Some(text[start.value..i + 1]);
        }
      }
    }
    return None;
  }

  // ----- JSON text, RFC 8259 sections 2 to 7 -----

  /** A character of a string: itself, one of the two-character escapes, or \u and four digits. */
  datatype Piece = Plain(ch: char) | Escape(ch: char) | Unicode(digits: string)

  predicate IsHex(ch: char) { '0' <= ch <= '9' || 'a' <= ch <= 'f' || 'A' <= ch <= 'F' }

  predicate ValidPiece(p: Piece) {
    match p
    case Plain(ch) => ch >= ' ' && ch != '"' && ch != '\\'
    case Escape(ch) => ch in {'"', '\\', '/', 'b', 'f', 'n', 'r', 't'}
    case Unicode(digits) => |digits| == 4 && forall i :: 0 <= i < 4 ==> IsHex(digits[i])
  }

  /** `Atom` is a number or a literal; `before` and `after` are insignificant whitespace. */
  datatype Json = Atom(text: string) | Text(pieces: seq<Piece>) | Array(open: string,
      items: Items) | Object(open: string, members: Members)

  datatype Items = NoItem | Item(before: string, value: Json, after: string, rest: Items)

  datatype Members = NoMember | Member(before: string, name: seq<Piece>, colon: string, beforeValue: string,
                                       value: Json, after: string, rest: Members)

  predicate IsBlank(s: string) {
    forall i :: 0 <= i < |s| ==> s[i] == ' ' || s[i] == '\t' || s[i] == '\n' || s[i] == '\r'
  }

  /** What a number or a literal is made of: no quote, brace or backslash among it. */
  predicate IsAtom(s: string) {
    forall i :: 0 <= i < |s| ==> s[i] != '"' && s[i] != '{' && s[i] != '}' && s[i] != '\\'
  }

  predicate ValidPieces(pieces: seq<Piece>) { forall i :: 0 <= i < |pieces| ==> ValidPiece(pieces[i]) }

  predicate Valid(j: Json) {
    match j
    case Atom(text) => IsAtom(text)
    case Text(pieces) => ValidPieces(pieces)
    case Array(blank, items) => IsBlank(blank) && ValidItems(items)
    case Object(blank, members) => IsBlank(blank) && ValidMembers(members)
  }

  predicate ValidItems(items: Items) {
    items.NoItem? || (IsBlank(items.before) && Valid(items.value) && IsBlank(items.after) && ValidItems(items.rest))
  }

  predicate ValidMembers(m: Members) {
    m.NoMember?
    || (IsBlank(m.before) && ValidPieces(m.name) && IsBlank(m.colon) && IsBlank(m.beforeValue) && Valid(m.value)
        && IsBlank(m.after) && ValidMembers(m.rest))
  }

  function PrintPiece(p: Piece): string {
    match p
    case Plain(ch) => [ch]
    case Escape(ch) => ['\\', ch]
    case Unicode(digits) => "\\u" + digits
  }

  function PrintPieces(pieces: seq<Piece>): string {
    if pieces == [] then "" else PrintPiece(pieces[0]) + PrintPieces(pieces[1..])
  }

  function Quoted(pieces: seq<Piece>): string { "\"" + PrintPieces(pieces) + "\"" }

  function Print(j: Json): string {
    match j
    case Atom(text) => text
    case Text(pieces) => Quoted(pieces)
    case Array(blank, items) => "[" + blank + PrintItems(items) + "]"
    case Object(blank, members) => "{" + blank + PrintMembers(members) + "}"
  }

  function PrintItems(items: Items): string {
    match items
    case NoItem => ""
    case Item(before, value, after, rest) =>
      before + Print(value) + after + (if rest.NoItem? then "" else ",") + PrintItems(rest)
  }

  function PrintMembers(m: Members): string {
    match m
    case NoMember => ""
    case Member(before, name, colon, beforeValue, value, after, rest) =>
      before + Quoted(name) + colon + ":" + beforeValue + Print(value) + after + (if rest.NoMember? then "" else ",")
        + PrintMembers(rest)
  }

  // ----- printed text never closes the scan early -----

  /** Reading `text` from `s` leaves the scan in `t`, wherever it goes on afterwards. */
  ghost predicate Reads(text: string, s: State, t: State) {
    forall rest: string {:trigger text + rest} :: Scan(text + rest, s) == Later(Scan(rest, t), |text|)
  }

  function Later(at: Option<nat>, shift: nat): Option<nat> { if at.Some? then Some(at.value + shift) else None }

  lemma ReadsBoth(a: string, b: string, s: State, t: State, u: State)
    requires Reads(a, s, t) && Reads(b, t, u)
    ensures Reads(a + b, s, u)
  {
    forall rest: string
      ensures Scan((a + b) + rest, s) == Later(Scan(rest, u), |a + b|)
    {
      assert (a + b) + rest == a + (b + rest);
    }
  }

  lemma ReadsNothing(s: State)
    ensures Reads("", s, s)
  {
    forall rest: string
      ensures Scan("" + rest, s) == Later(Scan(rest, s), 0)
    {
      assert "" + rest == rest;
    }
  }

  lemma ReadsOne(ch: char, s: State)
    requires !Closes(s, ch)
    ensures Reads([ch], s, Next(s, ch))
  {
    forall rest: string
      ensures Scan([ch] + rest, s) == Later(Scan(rest, Next(s, ch)), 1)
    {
      assert ([ch] + rest)[1..] == rest;
    }
  }

  lemma {:induction false} ReadsInert(text: string, s: State)
    requires forall i :: 0 <= i < |text| ==> Next(s, text[i]) == s && !Closes(s, text[i])
    ensures Reads(text, s, s)
  {
    if text == "" {
      ReadsNothing(s);
    } else {
      ReadsOne(text[0], s);
      ReadsInert(text[1..], s);
      ReadsBoth([text[0]], text[1..], s, s, s);
      assert [text[0]] + text[1..] == text;
    }
  }

  lemma ReadsPiece(p: Piece, depth: int)
    requires ValidPiece(p)
    ensures Reads(PrintPiece(p), State(depth, true, false), State(depth, true, false))
  {
    var s, e := State(depth, true, false), State(depth, true, true);
    match p
    case Plain(ch) => ReadsOne(ch, s);
    case Escape(ch) =>
      ReadsOne('\\', s);
      ReadsOne(ch, e);
      ReadsBoth(['\\'], [ch], s, e, s);
      assert ['\\'] + [ch] == ['\\', ch];
    case Unicode(digits) =>
      ReadsOne('\\', s);
      ReadsOne('u', e);
      ReadsBoth(['\\'], ['u'], s, e, s);
      ReadsInert(digits, s);
      ReadsBoth("\\u", digits, s, s, s);
      assert ['\\'] + ['u'] == "\\u";
  }

  lemma {:induction false} ReadsPieces(pieces: seq<Piece>, depth: int)
    requires ValidPieces(pieces)
    ensures Reads(PrintPieces(pieces), State(depth, true, false), State(depth, true, false))
  {
    hide Reads;
    var s := State(depth, true, false);
    if pieces == [] {
      ReadsNothing(s);
    } else {
      ReadsPiece(pieces[0], depth);
      ReadsPieces(pieces[1..], depth);
      ReadsBoth(PrintPiece(pieces[0]), PrintPieces(pieces[1..]), s, s, s);
    }
  }

  lemma ReadsQuoted(pieces: seq<Piece>, depth: int)
    requires ValidPieces(pieces)
    ensures Reads(Quoted(pieces), State(depth, false, false), State(depth, false, false))
  {
    hide Reads;
    var out, inside := State(depth, false, false), State(depth, true, false);
    ReadsOne('"', out);
    ReadsPieces(pieces, depth);
    ReadsOne('"', inside);
    ReadsBoth("\"", PrintPieces(pieces), out, inside, inside);
    ReadsBoth("\"" + PrintPieces(pieces), "\"", out, inside, out);
  }

  /** Two texts that leave the scan where it was, one after the other. */
  lemma Neutral(a: string, b: string, s: State)
    requires Reads(a, s, s) && Reads(b, s, s)
    ensures Reads(a + b, s, s)
  {
    ReadsBoth(a, b, s, s, s);
  }

  lemma {:induction false} ReadsValue(j: Json, depth: int)
    requires Valid(j) && depth >= 1
    ensures Reads(Print(j), State(depth, false, false), State(depth, false, false))
    decreases j
  {
    hide Reads;
    var s, inner := State(depth, false, false), State(depth + 1, false, false);
    match j
    case Atom(text) => ReadsInert(text, s);
    case Text(pieces) => ReadsQuoted(pieces, depth);
    case Array(blank, items) =>
      ReadsOne('[', s);
      ReadsInert(blank, s);
      ReadsItems(items, depth);
      ReadsOne(']', s);
      Neutral("[", blank, s);
      Neutral("[" + blank, PrintItems(items), s);
      Neutral("[" + blank + PrintItems(items), "]", s);
    case Object(blank, members) =>
      ReadsOne('{', s);
      ReadsInert(blank, inner);
      ReadsMembers(members, depth + 1);
      ReadsOne('}', inner);
      ReadsBoth("{", blank, s, inner, inner);
      ReadsBoth("{" + blank, PrintMembers(members), s, inner, inner);
      ReadsBoth("{" + blank + PrintMembers(members), "}", s, inner, s);
  }

  lemma ReadsComma(more: bool, depth: int)
    ensures Reads(if more then "," else "", State(depth, false, false), State(depth, false, false))
  {
    ReadsNothing(State(depth, false, false));
    ReadsOne(',', State(depth, false, false));
  }

  lemma {:induction false} ReadsItems(items: Items, depth: int)
    requires ValidItems(items) && depth >= 1
    ensures Reads(PrintItems(items), State(depth, false, false), State(depth, false, false))
    decreases items
  {
    hide Reads;
    var s := State(depth, false, false);
    match items
    case NoItem => ReadsNothing(s);
    case Item(before, value, after, rest) =>
      var comma := if rest.NoItem? then "" else ",";
      ReadsInert(before, s);
      ReadsValue(value, depth);
      ReadsInert(after, s);
      ReadsComma(!rest.NoItem?, depth);
      ReadsItems(rest, depth);
      Neutral(before, Print(value), s);
      Neutral(before + Print(value), after, s);
      Neutral(before + Print(value) + after, comma, s);
      Neutral(before + Print(value) + after + comma, PrintItems(rest), s);
  }

  lemma ReadsColon(colon: string, beforeValue: string, depth: int)
    requires IsBlank(colon) && IsBlank(beforeValue)
    ensures Reads(colon + ":" + beforeValue, State(depth, false, false), State(depth, false, false))
  {
    hide Reads;
    var s := State(depth, false, false);
    ReadsInert(colon, s);
    ReadsOne(':', s);
    ReadsInert(beforeValue, s);
    Neutral(colon, ":", s);
    Neutral(colon + ":", beforeValue, s);
  }

  /** A member up to its value. */
  lemma ReadsName(m: Members, depth: int)
    requires m.Member? && IsBlank(m.before) && ValidPieces(m.name) && IsBlank(m.colon) && IsBlank(m.beforeValue)
    ensures Reads(m.before + Quoted(m.name) + (m.colon + ":" + m.beforeValue), State(depth, false, false),
                  State(depth, false, false))
  {
    hide Reads, Quoted;
    var s := State(depth, false, false);
    ReadsInert(m.before, s);
    ReadsQuoted(m.name, depth);
    ReadsColon(m.colon, m.beforeValue, depth);
    Neutral(m.before, Quoted(m.name), s);
    Neutral(m.before + Quoted(m.name), m.colon + ":" + m.beforeValue, s);
  }

  lemma MemberText(m: Members)
    requires m.Member?
    ensures PrintMembers(m) == m.before + Quoted(m.name) + (m.colon + ":" + m.beforeValue) + Print(m.value) + m.after
                               + (if m.rest.NoMember? then "" else ",") + PrintMembers(m.rest)
  {
    hide Quoted, Print;
  }

  lemma {:induction false} ReadsMembers(m: Members, depth: int)
    requires ValidMembers(m) && depth >= 1
    ensures Reads(PrintMembers(m), State(depth, false, false), State(depth, false, false))
    decreases m
  {
    hide Reads, Quoted, Print;
    var s := State(depth, false, false);
    if m.NoMember? {
      ReadsNothing(s);
    } else {
      var comma := if m.rest.NoMember? then "" else ",";
      var name := m.before + Quoted(m.name) + (m.colon + ":" + m.beforeValue);
      ReadsName(m, depth);
      ReadsValue(m.value, depth);
      ReadsInert(m.after, s);
      ReadsComma(!m.rest.NoMember?, depth);
      ReadsMembers(m.rest, depth);
      MemberText(m);
      hide PrintMembers;
      Neutral(name, Print(m.value), s);
      Neutral(name + Print(m.value), m.after, s);
      Neutral(name + Print(m.value) + m.after, comma, s);
      Neutral(name + Print(m.value) + m.after + comma, PrintMembers(m.rest), s);
    }
  }

  lemma {:induction false} BraceAfter(prefix: string, text: string)
    requires '{' !in prefix && text != "" && text[0] == '{'
    ensures FirstBrace(prefix + text) == Some(|prefix|)
  {
    if prefix == "" {
      assert prefix + text == text;
    } else {
      assert (prefix + text)[1..] == prefix[1..] + text;
      BraceAfter(prefix[1..], text);
    }
  }

  /** The scan of a printed object, whatever follows it, stops at its last brace. */
  lemma ObjectScan(blank: string, members: Members, suffix: string)
    requires IsBlank(blank) && ValidMembers(members)
    ensures Scan(Print(Object(blank, members)) + suffix, State(0, false, false))
            == Some(|Print(Object(blank, members))| - 1)
  {
    var out, inner := State(0, false, false), State(1, false, false);
    var body := "{" + blank + PrintMembers(members);
    assert Reads(body, out, inner) by {
      hide Reads;
      ReadsOne('{', out);
      ReadsInert(blank, inner);
      ReadsMembers(members, 1);
      ReadsBoth("{", blank, out, inner, inner);
      ReadsBoth("{" + blank, PrintMembers(members), out, inner, inner);
    }
    assert Print(Object(blank, members)) + suffix == body + ("}" + suffix);
    assert Scan("}" + suffix, inner) == Some(0);
  }

  /** Any JSON object printed after a prefix without an opening brace and before any suffix is
      cut out exactly, braces, quotes and backslashes inside its strings included. */
  lemma FirstObjectRoundTrip(prefix: string, blank: string, members: Members, suffix: string)
    requires '{' !in prefix && IsBlank(blank) && ValidMembers(members)
    ensures FirstObject(prefix + Print(Object(blank, members)) + suffix) == Some(Print(Object(blank, members)))
  {
    var printed := Print(Object(blank, members));
    var rest := printed + suffix;
    assert prefix + printed + suffix == prefix + rest;
    BraceAfter(prefix, rest);
    assert (prefix + rest)[|prefix|..] == rest;
    ObjectScan(blank, members, suffix);
    assert rest[..|printed|] == printed;
  }
}
