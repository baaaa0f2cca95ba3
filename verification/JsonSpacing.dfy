/**
  White space between the tokens of a JSON text (section 2 of RFC 8259): compacting a text, the texts
  that spell a document, and reading a text back.
 */
module JsonSpacing {
  import opened Base
  import opened Json
  import opened JsonText
  import opened StringLiteral

  /** Where a scan stands: between tokens or in one, inside a string, or behind a backslash. */
  datatype Mode = Outside | Inside | Escaping

  function After(m: Mode, c: char): Mode {
    match m
    case Outside => if c == '\"' then Inside else Outside
    case Inside => if c == '\\' then Escaping else if c == '\"' then Outside else Inside
    case Escaping => Inside
  }

  predicate White(c: char) { c == ' ' || c == '\t' || c == '\n' || c == '\r' }

  /** `json.Compact`: white space outside strings is dropped. */
  function Compact(z: string, m: Mode): string {
    if z == "" then ""
    else (if m.Outside? && White(z[0]) then "" else [z[0]]) + Compact(z[1..], After(m, z[0]))
  }

  /** White space never splits a literal: `token` says that one is open, `gap` that space followed it. */
  predicate Unsplit(z: string, m: Mode, token: bool, gap: bool) {
    if z == "" then true
    else if m.Outside? && White(z[0]) then Unsplit(z[1..], m, token, true)
    else
      && !(m.Outside? && token && gap && TokenChar(z[0]))
      && Unsplit(z[1..], After(m, z[0]), m.Outside? && TokenChar(z[0]), false)
  }

  /** A text of the document, with white space wherever the grammar allows it. */
  predicate Spells(text: string, j: Json) {
    WellFormed(j) && Compact(text, Outside) == Print(j) && Unsplit(text, Outside, false, false)
  }

  predicate SpellsOption(text: string, v: Option<Json>) {
    if v.Some? then Spells(text, v.value) else text == ""
  }

  // ---- scanning a printed text ----

  function ModeAfter(z: string, m: Mode): Mode {
    if z == "" then m else ModeAfter(z[1..], After(m, z[0]))
  }

  /** Outside strings there is no white space and none of the characters of the mark lines. */
  predicate Dense(z: string, m: Mode) {
    z != "" ==>
      (m.Outside? ==> !White(z[0]) && z[0] != '=' && z[0] != '>') && Dense(z[1..], After(m, z[0]))
  }

  lemma {:induction false} ScanConcat(a: string, b: string, m: Mode)
    ensures ModeAfter(a + b, m) == ModeAfter(b, ModeAfter(a, m))
    ensures Dense(a + b, m) <==> Dense(a, m) && Dense(b, ModeAfter(a, m))
  {
    if a == "" {
      assert a + b == b;
    } else {
      ScanConcat(a[1..], b, After(m, a[0]));
      assert (a + b)[1..] == a[1..] + b;
    }
  }

  /** A whole token sequence: dense, and outside strings at both ends. */
  predicate Closed(z: string) { Dense(z, Outside) && ModeAfter(z, Outside) == Outside }

  lemma ClosedConcat(a: string, b: string)
    requires Closed(a) && Closed(b)
    ensures Closed(a + b)
  {
    ScanConcat(a, b, Outside);
  }

  lemma ClosedChar(c: char)
    requires !White(c) && c != '=' && c != '>' && c != '\"'
    ensures Closed([c])
  {
    assert [c][1..] == "";
  }

  lemma {:induction false} TokenClosed(z: string)
    requires forall i :: 0 <= i < |z| ==> TokenChar(z[i])
    ensures Closed(z)
  {
    if z != "" { TokenClosed(z[1..]); }
  }

  lemma {:induction false} LiteralInside(raw: string)
    requires LiteralOk(raw)
    ensures Dense(raw, Inside) && ModeAfter(raw, Inside) == Inside
  {
    if raw != "" {
      if raw[0] == '\\' {
        LiteralInside(raw[2..]);
        assert raw[1..][1..] == raw[2..];
      } else {
        LiteralInside(raw[1..]);
      }
    }
  }

  lemma QuoteClosed(raw: string)
    requires LiteralOk(raw)
    ensures Closed(Quote(raw))
  {
    LiteralInside(raw);
    var rest := raw + "\"";
    ScanConcat(raw, "\"", Inside);
    assert "\""[1..] == "";
    assert Quote(raw) == "\"" + rest;
    assert ("\"" + rest)[1..] == rest;
  }

  lemma {:induction false} PrintClosed(j: Json)
    requires WellFormed(j)
    ensures Closed(Print(j))
    decreases j, 1
  {
    match j
    case Lit(token) => TokenClosed(token);
    case Str(raw) => QuoteClosed(raw);
    case Arr(items) =>
      ItemsClosed(items);
      Bracket('[', PrintItems(items), ']');
    case Obj(fields) =>
      FieldsClosed(fields);
      Bracket('{', PrintFields(fields), '}');
  }

  lemma Bracket(open: char, body: string, close: char)
    requires Closed(body) && (open == '[' || open == '{') && (close == ']' || close == '}')
    ensures Closed([open] + body + [close])
  {
    ClosedChar(open);
    ClosedChar(close);
    ClosedConcat([open], body);
    ClosedConcat([open] + body, [close]);
  }

  lemma {:induction false} ItemsClosed(items: seq<Json>)
    requires forall i :: 0 <= i < |items| ==> WellFormed(items[i])
    ensures Closed(PrintItems(items))
    decreases items, 0
  {
    if items != [] {
      PrintClosed(items[0]);
      if |items| > 1 {
        ItemsClosed(items[1..]);
        ClosedChar(',');
        ClosedConcat(Print(items[0]), ",");
        ClosedConcat(Print(items[0]) + ",", PrintItems(items[1..]));
      }
    }
  }

  lemma {:induction false} FieldsClosed(fields: seq<Field>)
    requires WellFormed(Obj(fields))
    ensures Closed(PrintFields(fields))
    decreases fields, 0
  {
    if fields != [] {
      var f := fields[0];
      QuoteClosed(f.rawKey);
      PrintClosed(f.value);
      ClosedChar(':');
      ClosedConcat(Quote(f.rawKey), ":");
      ClosedConcat(Quote(f.rawKey) + ":", Print(f.value));
      if |fields| > 1 {
        FieldsClosed(fields[1..]);
        ClosedChar(',');
        ClosedConcat(PrintField(f), ",");
        ClosedConcat(PrintField(f) + ",", PrintFields(fields[1..]));
      }
    }
  }

  // ---- compact texts spell their documents ----

  lemma {:induction false} DenseStays(z: string, m: Mode, token: bool)
    requires Dense(z, m)
    ensures Compact(z, m) == z && Unsplit(z, m, token, false)
  {
    if z != "" {
      DenseStays(z[1..], After(m, z[0]), m.Outside? && TokenChar(z[0]));
      assert z == [z[0]] + z[1..];
    }
  }

  lemma PrintSpells(j: Json)
    requires WellFormed(j)
    ensures Spells(Print(j), j)
  {
    PrintClosed(j);
    DenseStays(Print(j), Outside, false);
  }

  // ---- reading back ----

  /** A text spells at most one document. */
  lemma SpellsOne(text: string, a: Json, b: Json)
    requires Spells(text, a) && Spells(text, b)
    ensures a == b
  {
    PrintInjective(a, b);
  }

  /** The document a text spells, if it spells one. */
  ghost function Read(text: string): Option<Json> {
    if exists j :: Spells(text, j) then
      var j :| Spells(text, j); Some(j)
    else None
  }

  lemma ReadSpelled(text: string, v: Option<Json>)
    requires SpellsOption(text, v)
    ensures Read(text) == v
  {
    if v.Some? {
      SpellsOne(text, Read(text).value, v.value);
    } else if exists j :: Spells("", j) {
      var j :| Spells("", j);
      HeadChar(j, "");
    }
  }

  // ---- no line of a spelled text starts a mark line ----

  predicate OneLine(s: string) {
    forall i :: 0 <= i < |s| ==> s[i] != '\n'
  }

  lemma {:induction false} PrintOneLine(j: Json)
    requires WellFormed(j)
    ensures OneLine(Print(j))
    decreases j, 1
  {
    match j
    case Lit(_) =>
    case Str(raw) => LiteralChars(raw);
    case Arr(items) => ItemsOneLine(items);
    case Obj(fields) => FieldsOneLine(fields);
  }

  lemma {:induction false} ItemsOneLine(items: seq<Json>)
    requires forall i :: 0 <= i < |items| ==> WellFormed(items[i])
    ensures OneLine(PrintItems(items))
    decreases items, 0
  {
    if items != [] {
      PrintOneLine(items[0]);
      ItemsOneLine(items[1..]);
    }
  }

  lemma {:induction false} FieldsOneLine(fields: seq<Field>)
    requires WellFormed(Obj(fields))
    ensures OneLine(PrintFields(fields))
    decreases fields, 0
  {
    if fields != [] {
      PrintOneLine(fields[0].value);
      LiteralChars(fields[0].rawKey);
      FieldsOneLine(fields[1..]);
    }
  }

  /** No line of x starts with the first character of the separator or of the end mark. */
  predicate Calm(x: string) {
    && (x != "" ==> x[0] != '=' && x[0] != '>')
    && forall i :: 0 <= i < |x| - 1 && x[i] == '\n' ==> x[i + 1] != '=' && x[i + 1] != '>'
  }

  /** Line breaks can only be white space between tokens, and no token starts with such a character. */
  lemma {:induction false} SpacedCalm(z: string, m: Mode)
    requires Dense(Compact(z, m), m) && OneLine(Compact(z, m))
    ensures forall i :: 0 <= i < |z| - 1 && z[i] == '\n' ==> z[i + 1] != '=' && z[i + 1] != '>'
    ensures m.Outside? && z != "" ==> z[0] != '=' && z[0] != '>'
  {
    if z != "" {
      var rest, c := z[1..], Compact(z, m);
      if m.Outside? && White(z[0]) {
        assert c == Compact(rest, m);
        SpacedCalm(rest, m);
      } else {
        assert c[0] == z[0] && c[1..] == Compact(rest, After(m, z[0]));
        forall i | 0 <= i < |c[1..]| ensures c[1..][i] != '\n' { assert c[1..][i] == c[i + 1]; }
        SpacedCalm(rest, After(m, z[0]));
      }
      forall i | 0 <= i < |z| - 1 && z[i] == '\n' ensures z[i + 1] != '=' && z[i + 1] != '>' {
        if i > 0 { assert z[i] == rest[i - 1] && z[i + 1] == rest[i]; }
      }
    }
  }

  /** Every JSON text is calm, however it is spaced. */
  lemma SpelledCalm(text: string, v: Option<Json>)
    requires SpellsOption(text, v)
    ensures Calm(text)
  {
    if v.Some? {
      PrintClosed(v.value);
      PrintOneLine(v.value);
      SpacedCalm(text, Outside);
    }
  }
}
