/**
  The compact text of a JSON document, as the encoder writes it with HTML escaping off, and the
  proof that this text determines the document.
 */
module JsonText {
  import opened Base
  import opened Json
  import opened StringLiteral

  function Quote(raw: string): string {
    "\"" + raw + "\""
  }

  function Print(j: Json): string
    decreases j, 1
  {
    match j
    case Lit(token) => token
    case Str(raw) => Quote(raw)
    case Arr(items) => "[" + PrintItems(items) + "]"
    case Obj(fields) => "{" + PrintFields(fields) + "}"
  }

  function PrintItems(items: seq<Json>): string
    decreases items, 0
  {
    if items == [] then ""
    else if |items| == 1 then Print(items[0])
    else Print(items[0]) + "," + PrintItems(items[1..])
  }

  function PrintField(f: Field): string
    decreases f, 2
  {
    Quote(f.rawKey) + ":" + Print(f.value)
  }

  function PrintFields(fields: seq<Field>): string
    decreases fields, 0
  {
    if fields == [] then ""
    else if |fields| == 1 then PrintField(fields[0])
    else PrintField(fields[0]) + "," + PrintFields(fields[1..])
  }

  predicate TokenChar(c: char) {
    '0' <= c <= '9' || 'a' <= c <= 'z' || 'A' <= c <= 'Z' || c == '+' || c == '-' || c == '.'
  }

  /** Literals are non-empty runs of token characters, as RFC 8259 section 3 allows. */
  predicate WellFormed(j: Json)
    decreases j
  {
    match j
    case Lit(token) => token != "" && forall i :: 0 <= i < |token| ==> TokenChar(token[i])
    case Str(raw) => LiteralOk(raw)
    case Arr(items) => forall i :: 0 <= i < |items| ==> WellFormed(items[i])
    case Obj(fields) => forall i :: 0 <= i < |fields| ==> LiteralOk(fields[i].rawKey) && WellFormed(fields[i].value)
  }

  // ---- the text determines the document ----

  /** What may follow a value: nothing, or a separator. */
  predicate Ends(x: string) {
    x == "" || x[0] == ',' || x[0] == ']' || x[0] == '}' || x[0] == '\n'
  }

  lemma Assoc(a: string, b: string, c: string)
    ensures a + b + c == a + (b + c)
  {
  }

  lemma Bracketed(open: char, body: string, close: char, x: string)
    ensures ([open] + body + [close] + x)[1..] == body + [close] + x
  {
  }

  lemma QuoteDecodes(s: string, t: string, x: string, y: string)
    requires LiteralOk(s) && LiteralOk(t) && Quote(s) + x == Quote(t) + y
    ensures s == t && x == y
  {
    Bracketed('\"', s, '\"', x);
    Bracketed('\"', t, '\"', y);
    LiteralDecodes(s, t, x, y);
  }

  function TokenRun(z: string): nat {
    if z != [] && TokenChar(z[0]) then 1 + TokenRun(z[1..]) else 0
  }

  lemma {:induction false} TokenRunOf(s: string, x: string)
    requires forall i :: 0 <= i < |s| ==> TokenChar(s[i])
    requires Ends(x)
    ensures TokenRun(s + x) == |s|
  {
    if s == [] {
      assert s + x == x;
    } else {
      TokenRunOf(s[1..], x);
      assert (s + x)[1..] == s[1..] + x;
    }
  }

  lemma TokenDecodes(s: string, t: string, x: string, y: string)
    requires forall i :: 0 <= i < |s| ==> TokenChar(s[i])
    requires forall i :: 0 <= i < |t| ==> TokenChar(t[i])
    requires Ends(x) && Ends(y) && s + x == t + y
    ensures s == t && x == y
  {
    TokenRunOf(s, x);
    TokenRunOf(t, y);
    assert s == (s + x)[..|s|] && t == (t + y)[..|t|];
    assert x == (s + x)[|s|..] && y == (t + y)[|t|..];
  }

  /** The first character tells the kind of a value. */
  lemma HeadChar(j: Json, x: string)
    requires WellFormed(j)
    ensures Print(j) != ""
    ensures var c := (Print(j) + x)[0];
      (j.Lit? <==> TokenChar(c)) && (j.Str? <==> c == '\"') && (j.Arr? <==> c == '[') && (j.Obj? <==> c == '{')
  {
  }

  /** Printing is prefix-free up to a separator, so printed documents can be read back in only one way. */
  lemma {:induction false} PrintDecodes(a: Json, b: Json, x: string, y: string)
    requires WellFormed(a) && WellFormed(b) && Ends(x) && Ends(y)
    requires Print(a) + x == Print(b) + y
    ensures a == b && x == y
    decreases a, 1
  {
    HeadChar(a, x);
    HeadChar(b, y);
    if a.Lit? {
      TokenDecodes(a.token, b.token, x, y);
    } else if a.Str? {
      QuoteDecodes(a.raw, b.raw, x, y);
    } else if a.Arr? {
      Bracketed('[', PrintItems(a.items), ']', x);
      Bracketed('[', PrintItems(b.items), ']', y);
      ItemsDecode(a.items, b.items, x, y);
    } else {
      Bracketed('{', PrintFields(a.fields), '}', x);
      Bracketed('{', PrintFields(b.fields), '}', y);
      FieldsDecode(a.fields, b.fields, x, y);
    }
  }

  /** What follows the first item of a list. */
  function RestItems(items: seq<Json>, x: string): string
    requires items != []
  {
    if |items| == 1 then "]" + x else "," + (PrintItems(items[1..]) + "]" + x)
  }

  lemma ItemsUnfold(items: seq<Json>, x: string)
    requires items != []
    ensures PrintItems(items) + "]" + x == Print(items[0]) + RestItems(items, x)
  {
    var head := Print(items[0]);
    if |items| > 1 {
      var tail := PrintItems(items[1..]);
      Assoc(head + "," + tail, "]", x);
      Assoc(head + ",", tail, "]" + x);
      Assoc(head, ",", tail + ("]" + x));
      Assoc(tail, "]", x);
    } else {
      Assoc(head, "]", x);
    }
  }

  /** Two lists that start with the same item go on with the same separator. */
  lemma SameRest(a: seq<Json>, b: seq<Json>, x: string, y: string)
    requires a != [] && b != [] && RestItems(a, x) == RestItems(b, y)
    ensures |a| == 1 <==> |b| == 1
    ensures |a| == 1 ==> x == y
    ensures |a| > 1 ==> PrintItems(a[1..]) + "]" + x == PrintItems(b[1..]) + "]" + y
  {
    var l, r := RestItems(a, x), RestItems(b, y);
    assert |a| == 1 <==> l[0] == ']';
    assert |b| == 1 <==> r[0] == ']';
    assert l[1..] == if |a| == 1 then x else PrintItems(a[1..]) + "]" + x;
    assert r[1..] == if |b| == 1 then y else PrintItems(b[1..]) + "]" + y;
  }

  /** Only the empty list closes at once. */
  lemma ItemsHead(a: seq<Json>, x: string)
    requires forall i :: 0 <= i < |a| ==> WellFormed(a[i])
    ensures (PrintItems(a) + "]" + x)[0] == ']' <==> a == []
  {
    if a != [] {
      ItemsUnfold(a, x);
      HeadChar(a[0], RestItems(a, x));
    }
  }

  lemma HeadAndTail(a: seq<Json>, b: seq<Json>)
    requires a != [] && b != [] && a[0] == b[0] && a[1..] == b[1..]
    ensures a == b
  {
    assert a == [a[0]] + a[1..] && b == [b[0]] + b[1..];
  }

  lemma {:induction false} ItemsDecode(a: seq<Json>, b: seq<Json>, x: string, y: string)
    requires forall i :: 0 <= i < |a| ==> WellFormed(a[i])
    requires forall i :: 0 <= i < |b| ==> WellFormed(b[i])
    requires PrintItems(a) + "]" + x == PrintItems(b) + "]" + y
    ensures a == b && x == y
    decreases a, 0
  {
    ItemsHead(a, x);
    ItemsHead(b, y);
    if a == [] {
      assert x == (PrintItems(a) + "]" + x)[1..] && y == (PrintItems(b) + "]" + y)[1..];
    } else {
      ItemsUnfold(a, x);
      ItemsUnfold(b, y);
      PrintDecodes(a[0], b[0], RestItems(a, x), RestItems(b, y));
      SameRest(a, b, x, y);
      if |a| > 1 { ItemsDecode(a[1..], b[1..], x, y); }
      HeadAndTail(a, b);
    }
  }

  function RestFields(fields: seq<Field>, x: string): string
    requires fields != []
  {
    if |fields| == 1 then "}" + x else "," + (PrintFields(fields[1..]) + "}" + x)
  }

  lemma FieldsUnfold(fields: seq<Field>, x: string)
    requires fields != []
    ensures PrintFields(fields) + "}" + x
         == Quote(fields[0].rawKey) + (":" + (Print(fields[0].value) + RestFields(fields, x)))
  {
    var key, value, rest := Quote(fields[0].rawKey), Print(fields[0].value), RestFields(fields, x);
    var head := key + ":" + value;
    if |fields| > 1 {
      var tail := PrintFields(fields[1..]);
      Assoc(head + "," + tail, "}", x);
      Assoc(head + ",", tail, "}" + x);
      Assoc(head, ",", tail + ("}" + x));
      Assoc(tail, "}", x);
    } else {
      Assoc(head, "}", x);
    }
    Assoc(key + ":", value, rest);
    Assoc(key, ":", value + rest);
  }

  lemma SameRestFields(a: seq<Field>, b: seq<Field>, x: string, y: string)
    requires a != [] && b != [] && RestFields(a, x) == RestFields(b, y)
    ensures |a| == 1 <==> |b| == 1
    ensures |a| == 1 ==> x == y
    ensures |a| > 1 ==> PrintFields(a[1..]) + "}" + x == PrintFields(b[1..]) + "}" + y
  {
    var l, r := RestFields(a, x), RestFields(b, y);
    assert |a| == 1 <==> l[0] == '}';
    assert |b| == 1 <==> r[0] == '}';
    assert l[1..] == if |a| == 1 then x else PrintFields(a[1..]) + "}" + x;
    assert r[1..] == if |b| == 1 then y else PrintFields(b[1..]) + "}" + y;
  }

  lemma FieldsHead(a: seq<Field>, x: string)
    ensures (PrintFields(a) + "}" + x)[0] == '}' <==> a == []
  {
    if a != [] { FieldsUnfold(a, x); }
  }

  lemma {:induction false} FieldsDecode(a: seq<Field>, b: seq<Field>, x: string, y: string)
    requires WellFormed(Obj(a)) && WellFormed(Obj(b))
    requires PrintFields(a) + "}" + x == PrintFields(b) + "}" + y
    ensures a == b && x == y
    decreases a, 0
  {
    FieldsHead(a, x);
    FieldsHead(b, y);
    if a == [] {
      assert x == (PrintFields(a) + "}" + x)[1..] && y == (PrintFields(b) + "}" + y)[1..];
    } else {
      FieldsUnfold(a, x);
      FieldsUnfold(b, y);
      var u, v := Print(a[0].value) + RestFields(a, x), Print(b[0].value) + RestFields(b, y);
      QuoteDecodes(a[0].rawKey, b[0].rawKey, ":" + u, ":" + v);
      assert u == (":" + u)[1..] && v == (":" + v)[1..];
      PrintDecodes(a[0].value, b[0].value, RestFields(a, x), RestFields(b, y));
      SameRestFields(a, b, x, y);
      if |a| > 1 { FieldsDecode(a[1..], b[1..], x, y); }
      assert a == [a[0]] + a[1..] && b == [b[0]] + b[1..];
    }
  }

  /** Two well-formed documents with the same text are the same document. */
  lemma PrintInjective(a: Json, b: Json)
    requires WellFormed(a) && WellFormed(b) && Print(a) == Print(b)
    ensures a == b
  {
    assert Print(a) + "" == Print(a) && Print(b) + "" == Print(b);
    PrintDecodes(a, b, "", "");
  }
}
