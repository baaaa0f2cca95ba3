/** Reading conflict marks back and resolving single fields (`internal/merge/merge.go:183-331`). */
module ConflictMark {
  import opened Base
  import opened StringOrder
  import opened Json
  import opened JsonSpacing
  import opened JsonText
  import opened StringLiteral
  import opened Merge
  import opened MergeCorrect

  /** `strings.Index`: the first place where sub occurs, or -1. */
  function IndexOf(s: string, sub: string): int {
    if sub <= s then 0
    else if s == "" then -1
    else
      var r := IndexOf(s[1..], sub);
      if r < 0 then -1 else r + 1
  }

  const HEAD := MARK_START + "\n"
  const SEP := "\n" + MARK_SEP + "\n"
  const TAIL := "\n" + MARK_END

  function ParseMark(mark: string): Option<(string, string)> {
    Cut(mark, IndexOf(mark, HEAD), IndexOf(mark, SEP), IndexOf(mark, TAIL))
  }

  function Cut(mark: string, p1: int, p2: int, p3: int): Option<(string, string)> {
    var from := p1 + |HEAD|;
    if p1 < 0 || p2 < 0 || p3 < 0 || p3 < p2 then None
    // the source slices here; out-of-range slices cannot come from a written mark
    else if from <= p2 <= |mark| && p2 + |SEP| <= p3 <= |mark| then Some((mark[from..p2], mark[p2 + |SEP|..p3]))
    else None
  }

  lemma PrefixHead(z: string, sub: string)
    requires |sub| >= 2 && |sub| <= |z|
    ensures sub <= z ==> z[0] == sub[0] && z[1] == sub[1]
  {
  }

  lemma {:induction false} IndexFirst(z: string, sub: string, n: nat)
    requires |sub| >= 2 && n + |sub| <= |z| && z[n..n + |sub|] == sub
    requires forall i :: 0 <= i < n ==> !(z[i] == sub[0] && z[i + 1] == sub[1])
    ensures IndexOf(z, sub) == n
  {
    if n == 0 {
      assert z[..|sub|] == sub;
    } else {
      PrefixHead(z, sub);
      assert z[1..][n - 1..n - 1 + |sub|] == z[n..n + |sub|];
      forall i | 0 <= i < n - 1 ensures !(z[1..][i] == sub[0] && z[1..][i + 1] == sub[1]) {
        assert z[1..][i] == z[i + 1] && z[1..][i + 1] == z[i + 2];
      }
      IndexFirst(z[1..], sub, n - 1);
    }
  }

  /** Nowhere in z before n is a line break followed by c. */
  predicate NoBreak(z: string, n: nat, c: char) {
    forall i :: 0 <= i < n && i + 1 < |z| && z[i] == '\n' ==> z[i + 1] != c
  }

  /** Passing a calm text that starts on a fresh line and is followed by a line break. */
  lemma PassCalm(pre: string, x: string, post: string, c: char)
    requires Calm(x) && (c == '=' || c == '>')
    requires pre != "" && (post == "" || post[0] == '\n')
    requires NoBreak(pre, |pre|, c)
    ensures NoBreak(pre + x + post, |pre| + |x|, c)
  {
    var z := pre + x + post;
    forall i | 0 <= i < |pre| + |x| && i + 1 < |z| && z[i] == '\n' ensures z[i + 1] != c {
      if i + 1 < |pre| {
        assert z[i] == pre[i] && z[i + 1] == pre[i + 1];
      } else if i + 1 < |pre| + |x| {
        assert z[i + 1] == x[i + 1 - |pre|];
        if i >= |pre| { assert z[i] == x[i - |pre|]; }
      } else {
        assert z[i + 1] == post[0];
      }
    }
  }

  lemma FindAfter(pre: string, sub: string, post: string)
    requires |sub| >= 2 && sub[0] == '\n' && NoBreak(pre + sub + post, |pre|, sub[1])
    ensures IndexOf(pre + sub + post, sub) == |pre|
  {
    var z := pre + sub + post;
    assert z[|pre|..|pre| + |sub|] == sub;
    IndexFirst(z, sub, |pre|);
  }

  lemma MarkShape(o: string, t: string)
    ensures MarkText(o, t) == HEAD + o + SEP + t + TAIL
  {
    assert MarkText(o, t) == HEAD + o + SEP + t + TAIL;
  }

  lemma FindSep(o: string, t: string)
    requires Calm(o)
    ensures IndexOf(HEAD + o + SEP + t + TAIL, SEP) == |HEAD + o|
  {
    PassCalm(HEAD, o, SEP + (t + TAIL), '=');
    Assoc(HEAD + o, SEP, t + TAIL);
    Assoc(HEAD + o + SEP, t, TAIL);
    FindAfter(HEAD + o, SEP, t + TAIL);
  }

  lemma FindTail(o: string, t: string)
    requires Calm(o) && Calm(t)
    ensures IndexOf(HEAD + o + SEP + t + TAIL, TAIL) == |HEAD + o + SEP + t|
  {
    PassCalm(HEAD, o, SEP, '>');
    SepQuiet(HEAD + o, SEP);
    PassCalm(HEAD + o + SEP, t, TAIL, '>');
    var z := HEAD + o + SEP + t + TAIL;
    assert z + "" == z;
    FindAfter(HEAD + o + SEP + t, TAIL, "");
  }

  lemma FindHead(rest: string)
    ensures IndexOf(HEAD + rest, HEAD) == 0
  {
  }

  lemma StartsAtHead(o: string, t: string)
    ensures IndexOf(HEAD + o + SEP + t + TAIL, HEAD) == 0
  {
    Assoc(HEAD + o + SEP, t, TAIL);
    Assoc(HEAD + o, SEP, t + TAIL);
    Assoc(HEAD, o, SEP + (t + TAIL));
    FindHead(o + (SEP + (t + TAIL)));
  }

  lemma CutSides(o: string, t: string)
    ensures var z, p2, p3 := HEAD + o + SEP + t + TAIL, |HEAD + o|, |HEAD + o + SEP + t|;
      |HEAD| <= p2 <= p2 + |SEP| <= p3 <= |z| && z[|HEAD|..p2] == o && z[p2 + |SEP|..p3] == t
  {
    var z := HEAD + o + SEP + t + TAIL;
    Between(HEAD + o + SEP, t, TAIL, z);
    Assoc(HEAD + o + SEP, t, TAIL);
    Assoc(HEAD + o, SEP, t + TAIL);
    Between(HEAD, o, SEP + (t + TAIL), z);
  }

  /** parseMark inverts the text of markConflict whenever both sides are calm. */
  lemma MarkRoundTrip(o: string, t: string)
    requires Calm(o) && Calm(t)
    ensures ParseMark(MarkText(o, t)) == Some((o, t))
  {
    MarkShape(o, t);
    FindSep(o, t);
    FindTail(o, t);
    StartsAtHead(o, t);
    CutSides(o, t);
  }

  lemma Between(a: string, b: string, c: string, z: string)
    requires z == a + b + c
    ensures z[|a|..|a + b|] == b
  {
  }

  lemma SepQuiet(pre: string, sep: string)
    requires sep == "\n" + MARK_SEP + "\n" && NoBreak(pre + sep, |pre|, '>')
    ensures NoBreak(pre + sep, |pre + sep|, '>')
  {
    var z := pre + sep;
    forall i | |pre| <= i < |z| - 1 && z[i] == '\n' ensures z[i + 1] != '>' {
      assert z[i] == sep[i - |pre|] && z[i + 1] == sep[i + 1 - |pre|];
    }
  }

  // ---- field paths ----

  /** `strings.Split(s, ".")`. */
  function SplitDots(s: string): (parts: seq<string>)
    ensures parts != []
  {
    if s == "" then [""]
    else
      var rest := SplitDots(s[1..]);
      if s[0] == '.' then [""] + rest else [[s[0]] + rest[0]] + rest[1..]
  }

  predicate DotFree(k: string) { '.' !in k }

  lemma {:induction false} SplitFirst(k: string, rest: string)
    requires DotFree(k)
    ensures SplitDots(k) == [k]
    ensures SplitDots(k + "." + rest) == [k] + SplitDots(rest)
  {
    var s := k + "." + rest;
    if k == "" {
      assert s[1..] == rest;
    } else {
      SplitFirst(k[1..], rest);
      assert s[1..] == k[1..] + "." + rest;
      assert k == [k[0]] + k[1..];
    }
  }

  function DotJoin(path: seq<string>): string
    requires path != []
  {
    if |path| == 1 then path[0] else path[0] + "." + DotJoin(path[1..])
  }

  lemma {:induction false} DottedIsJoin(path: seq<string>)
    requires path != [] && path[0] != ""
    ensures Dotted(path) == DotJoin(path) != ""
  {
    var n := |path| - 1;
    if n == 0 {
      assert path[..0] == [];
    } else {
      DottedIsJoin(path[..n]);
      JoinSnoc(path[..n], path[n]);
      assert path[..n] + [path[n]] == path;
    }
  }

  lemma {:induction false} JoinSnoc(path: seq<string>, k: string)
    requires path != []
    ensures DotJoin(path + [k]) == DotJoin(path) + "." + k
  {
    if |path| > 1 {
      JoinSnoc(path[1..], k);
      assert (path + [k])[1..] == path[1..] + [k];
    } else {
      assert (path + [k])[1..] == [k];
    }
  }

  predicate PlainPath(path: seq<string>) {
    path != [] && path[0] != "" && forall i :: 0 <= i < |path| ==> DotFree(path[i])
  }

  lemma {:induction false} SplitJoin(path: seq<string>)
    requires path != [] && forall i :: 0 <= i < |path| ==> DotFree(path[i])
    ensures SplitDots(DotJoin(path)) == path
  {
    if |path| == 1 {
      SplitFirst(path[0], "");
    } else {
      SplitFirst(path[0], DotJoin(path[1..]));
      SplitJoin(path[1..]);
    }
  }

  /** A dotted path of plain keys splits into its keys again. */
  lemma SplitDotted(path: seq<string>)
    requires PlainPath(path)
    ensures SplitDots(Dotted(path)) == path
  {
    DottedIsJoin(path);
    SplitJoin(path);
  }

  // ---- resolving one field ----

  datatype Choice = ChoiceLocal | ChoiceServer | ChoiceManual

  /** A raw value: nil, which is written as null; bytes the encoder rejects; or a document. */
  datatype Raw = Nil | Broken | Text(value: Json)

  type RawMembers = map<string, Raw>

  function Raws(m: Members): RawMembers {
    map k | k in m :: Text(m[k])
  }

  function Written(v: Raw): Json {
    if v.Text? then v.value else NULL
  }

  function AllWritten(m: RawMembers): Members {
    map k | k in m :: Written(m[k])
  }

  /** Encoding a map of raw values: one value the encoder rejects leaves no bytes at all. */
  function Encoded(m: RawMembers): Raw {
    if exists k :: k in m && m[k].Broken? then Nil else Text(Obj(FromMap(AllWritten(m))))
  }

  datatype Stored = NotStored(reason: string) | Crashed | Kept(members: RawMembers)

  /** `Blanked`: no bytes and no error. */
  datatype Resolved = Refused(reason: string) | Panics | Blanked | Document(doc: Json)

  /** Decoding a raw value into a map: what cannot be decoded leaves it empty. */
  function SubObject(v: Raw): Members {
    if v.Text? then ParseObject(v.value).Or(map[]) else map[]
  }

  /** Only the first two keys of a path are looked at. */
  function GetByPath(m: RawMembers, parts: seq<string>): Option<Raw>
    requires parts != []
  {
    if parts[0] == "" || parts[0] !in m then None
    else if |parts| == 1 then Some(m[parts[0]])
    else if !m[parts[0]].Text? || ParseObject(m[parts[0]].value).None? then None
    else Get(Raws(SubObject(m[parts[0]])), parts[1])
  }

  function SetByPath(m: RawMembers, parts: seq<string>, v: Raw): Stored
    requires parts != []
  {
    if parts[0] == "" then NotStored("empty path")
    else if |parts| == 1 then Kept(m[parts[0] := v])
    // decoding null resets the fresh map to nil, and the next write to it fails
    else if parts[0] in m && m[parts[0]] == Text(NULL) then Crashed
    else
      var sub := Raws(if parts[0] in m then SubObject(m[parts[0]]) else map[]);
      Kept(m[parts[0] := Encoded(sub[parts[1] := v])])
  }

  function Marshalled(s: Stored): Resolved {
    match s
    case NotStored(reason) => Refused(reason)
    case Crashed => Panics
    case Kept(m) => if Encoded(m).Text? then Document(Encoded(m).value) else Blanked
  }

  /** The text between two mark lines as a raw value. */
  ghost function AsRaw(text: string): Raw {
    if Read(text).Some? then Text(Read(text).value) else Broken
  }

  ghost function ResolveField(merged: Json, field: string, choice: Choice, manual: Raw): Resolved {
    var obj := ParseObject(merged);
    var parts := SplitDots(field);
    if obj.None? then Refused("merged is not an object")
    else if choice.ChoiceManual? then
      if parts[0] == "" then Refused("empty path")
      else if merged == NULL then Panics
      else Marshalled(SetByPath(Raws(obj.value), parts, manual))
    else
      var cur := GetByPath(Raws(obj.value), parts);
      if cur.None? || !cur.value.Text? || !cur.value.value.Str? then Refused("not a string")
      else if ParseMark(Unescape(cur.value.value.raw)).None? then Refused("not a conflict mark")
      else
        var (ours, theirs) := ParseMark(Unescape(cur.value.value.raw)).value;
        Marshalled(SetByPath(Raws(obj.value), parts, AsRaw(if choice.ChoiceLocal? then ours else theirs)))
  }

  /** The parsed document, whose members the source reads and replaces in place. */
  class Fields {
    var obj: RawMembers

    constructor (obj: RawMembers)
      ensures this.obj == obj
    {
      this.obj := obj;
    }

    method GetFieldByPath(parts: seq<string>) returns (v: Option<Raw>)
      requires parts != []
      ensures v == GetByPath(obj, parts)
    {
      if parts[0] == "" || parts[0] !in obj { return None; }
      if |parts| == 1 { return Some(obj[parts[0]]); }
      if !obj[parts[0]].Text? { return None; }
      var sub := ParseObject(obj[parts[0]].value);
      if sub.None? || parts[1] !in sub.value { return None; }
      return Some(Text(sub.value[parts[1]]));
    }

    /** On failure the members stay as they were. */
    method SetFieldByPath(parts: seq<string>, v: Raw) returns (done: Stored)
      requires parts != []
      modifies this
      ensures done == SetByPath(old(obj), parts, v)
      ensures obj == if done.Kept? then done.members else old(obj)
    {
      if parts[0] == "" { return NotStored("empty path"); }
      if |parts| == 1 {
        obj := obj[parts[0] := v];
        return Kept(obj);
      }
      var sub: RawMembers := map[];
      if parts[0] in obj {
        if obj[parts[0]] == Text(NULL) { return Crashed; }
        sub := Raws(SubObject(obj[parts[0]]));
      }
      sub := sub[parts[1] := v];
      var bytes := Marshal(sub);
      obj := obj[parts[0] := bytes];
      return Kept(obj);
    }

    /** The encoder writes member after member and gives up at the first one it rejects. */
    static method Marshal(m: RawMembers) returns (bytes: Raw)
      ensures bytes == Encoded(m)
    {
      var rest := m.Keys;
      var done: Members := map[];
      while rest != {}
        invariant rest <= m.Keys && done.Keys == m.Keys - rest
        invariant forall k :: k in done ==> !m[k].Broken? && done[k] == Written(m[k])
        decreases |rest|
      {
        var k :| k in rest;
        if m[k].Broken? { return Nil; }
        done, rest := done[k := Written(m[k])], rest - {k};
      }
      assert done == AllWritten(m);
      return Text(Obj(FromMap(done)));
    }

    method MarshalObject() returns (r: Resolved)
      ensures r == Marshalled(Kept(obj))
    {
      var bytes := Marshal(obj);
      return if bytes.Text? then Document(bytes.value) else Blanked;
    }
  }

  function Side(choice: Choice, o: Option<Json>, t: Option<Json>): Option<Json> {
    if choice.ChoiceLocal? then o else t
  }

  /** A mark gives back the two texts it was made of, however they are spaced. */
  lemma MarkReads(x: string, o: Option<Json>, y: string, t: Option<Json>)
    requires SpellsOption(x, o) && SpellsOption(y, t)
    ensures ParseMark(Unescape(Escape(MarkText(x, y)))) == Some((x, y))
    ensures Read(x) == o && Read(y) == t
  {
    SpelledCalm(x, o);
    SpelledCalm(y, t);
    MarkRoundTrip(x, y);
    UnescapeEscape(MarkText(x, y));
    ReadSpelled(x, o);
    ReadSpelled(y, t);
  }

  lemma AtShort(v: Option<Json>, path: seq<string>)
    requires path != []
    ensures |path| == 1 ==> At(v, path) == Child(v, path[0])
    ensures |path| == 2 ==> At(v, path) == Child(Child(v, path[0]), path[1])
  {
    if |path| == 1 {
      assert path[1..] == [];
    } else if |path| == 2 {
      var rest := path[1..];
      assert rest[1..] == [];
      assert At(Child(v, path[0]), rest) == At(Child(Child(v, path[0]), rest[0]), rest[1..]);
    }
  }

  /** The members of a document after v was put at a path of one or two keys. */
  function Updated(m: Members, path: seq<string>, v: Json): Members
    requires path != []
  {
    if |path| == 1 then m[path[0] := v]
    else m[path[0] := Obj(FromMap(MembersOf(Get(m, path[0]))[path[1] := v]))]
  }

  /** Reading an update back: the new value at its path, every other member as before. */
  lemma UpdatedAt(m: Members, path: seq<string>, v: Json)
    requires path != [] && |path| <= 2
    ensures At(Some(Obj(FromMap(Updated(m, path, v)))), path) == Some(v)
    ensures |path| == 2 ==> MembersOf(Get(Updated(m, path, v), path[0])) == MembersOf(Get(m, path[0]))[path[1] := v]
  {
    var u := Updated(m, path, v);
    AtShort(Some(Obj(FromMap(u))), path);
    MemberBack(u, path[0]);
    if |path| == 2 { InnerBack(MembersOf(Get(m, path[0])), path[1], v); }
  }

  lemma InnerBack(m: Members, k: string, v: Json)
    ensures var o := Some(Obj(FromMap(m[k := v]))); Child(o, k) == Some(v) && MembersOf(o) == m[k := v]
  {
    MapRoundTrip(m[k := v]);
    MemberBack(m[k := v], k);
  }

  lemma MemberBack(m: Members, k: string)
    ensures Child(Some(Obj(FromMap(m))), k) == Get(m, k)
  {
    MapRoundTrip(m);
  }

  lemma GetMarked(merged: Json, path: seq<string>, raw: string)
    requires path != [] && path[0] != "" && |path| <= 2 && merged.Obj?
    requires At(Some(merged), path) == Some(Str(raw))
    ensures GetByPath(Raws(AsMap(merged.fields)), path) == Some(Text(Str(raw)))
    ensures |path| == 2 ==> path[0] in AsMap(merged.fields) && AsMap(merged.fields)[path[0]].Obj?
  {
    AtShort(Some(merged), path);
  }

  /** The encoder on parsed members with one value replaced. */
  lemma EncodedUpdate(m: Members, k: string, v: Raw)
    ensures Encoded(Raws(m)[k := v]) == if v.Broken? then Nil else Text(Obj(FromMap(m[k := Written(v)])))
  {
    var r := Raws(m)[k := v];
    if v.Broken? {
      assert r[k].Broken?;
    } else {
      assert forall j :: j in r ==> !r[j].Broken?;
      WrittenUpdate(m, k, v);
    }
  }

  lemma WrittenUpdate(m: Members, k: string, v: Raw)
    ensures AllWritten(Raws(m)[k := v]) == m[k := Written(v)]
  {
  }

  /** The write below an object that is there. */
  lemma SetDeep(m: Members, path: seq<string>, v: Raw)
    requires |path| == 2 && path[0] != "" && path[0] in m && m[path[0]].Obj?
    ensures SetByPath(Raws(m), path, v) ==
            Kept(Raws(m)[path[0] := Encoded(Raws(AsMap(m[path[0]].fields))[path[1] := v])])
  {
    assert Raws(m)[path[0]] == Text(m[path[0]]);
  }

  lemma MarshalledUpdate(m: Members, k: string, v: Raw)
    ensures Marshalled(Kept(Raws(m)[k := v])) ==
            if v.Broken? then Blanked else Document(Obj(FromMap(m[k := Written(v)])))
  {
    EncodedUpdate(m, k, v);
  }

  /** Writing a document at a path, and what the encoder makes of a value it rejects. */
  lemma SetWritten(m: Members, path: seq<string>, v: Json)
    requires path != [] && path[0] != "" && |path| <= 2
    requires |path| == 2 ==> path[0] in m && m[path[0]].Obj?
    ensures Marshalled(SetByPath(Raws(m), path, Text(v))) == Document(Obj(FromMap(Updated(m, path, v))))
  {
    if |path| == 1 {
      MarshalledUpdate(m, path[0], Text(v));
    } else {
      SetDeep(m, path, Text(v));
      EncodedUpdate(AsMap(m[path[0]].fields), path[1], Text(v));
      MarshalledUpdate(m, path[0], Text(Obj(FromMap(AsMap(m[path[0]].fields)[path[1] := v]))));
    }
  }

  lemma SetBroken(m: Members, path: seq<string>)
    requires path != [] && path[0] != "" && |path| <= 2
    requires |path| == 2 ==> path[0] in m && m[path[0]].Obj?
    ensures Marshalled(SetByPath(Raws(m), path, Broken)) ==
            if |path| == 1 then Blanked else Document(Obj(FromMap(m[path[0] := NULL])))
  {
    if |path| == 1 {
      MarshalledUpdate(m, path[0], Broken);
    } else {
      SetDeep(m, path, Broken);
      EncodedUpdate(AsMap(m[path[0]].fields), path[1], Broken);
      MarshalledUpdate(m, path[0], Nil);
    }
  }

  /** What the source finds under the first key, as members. */
  lemma SubMembers(m: Members, k: string)
    ensures k in Raws(m) <==> k in m
    ensures k in m ==> Raws(m)[k] == Text(m[k])
    ensures Get(m, k) != Some(NULL) ==> (if k in m then SubObject(Raws(m)[k]) else map[]) == MembersOf(Get(m, k))
  {
  }

  /** Writing a document wherever the first key leads, except into a null, which the source cannot write to. */
  lemma SetAnywhere(m: Members, path: seq<string>, v: Json)
    requires |path| >= 2 && path[0] != "" && Get(m, path[0]) != Some(NULL)
    ensures Marshalled(SetByPath(Raws(m), path, Text(v))) == Document(Obj(FromMap(Updated(m, path[..2], v))))
  {
    var sub := MembersOf(Get(m, path[0]));
    SubMembers(m, path[0]);
    EncodedUpdate(sub, path[1], Text(v));
    assert SetByPath(Raws(m), path, Text(v)) == Kept(Raws(m)[path[0] := Text(Obj(FromMap(sub[path[1] := v])))]);
    MarshalledUpdate(m, path[0], Text(Obj(FromMap(sub[path[1] := v]))));
  }

  lemma ManualUnfold(merged: Json, field: string, v: Raw)
    requires merged.Obj? && SplitDots(field)[0] != ""
    ensures ResolveField(merged, field, ChoiceManual, v) ==
            Marshalled(SetByPath(Raws(AsMap(merged.fields)), SplitDots(field), v))
  {
  }

  lemma SetIntoNull(m: Members, path: seq<string>, v: Raw)
    requires |path| >= 2 && path[0] != "" && Get(m, path[0]) == Some(NULL)
    ensures Marshalled(SetByPath(Raws(m), path, v)) == Panics
  {
    SubMembers(m, path[0]);
  }

  /**
    Resolving by hand puts the given value at the first two keys of the path, whatever is there, and
    leaves every other member alone; only a null in place of the enclosing object makes it crash.
   */
  lemma ResolveManually(merged: Json, path: seq<string>, v: Json)
    requires PlainPath(path) && merged.Obj?
    ensures var m := AsMap(merged.fields);
      ResolveField(merged, Dotted(path), ChoiceManual, Text(v)) ==
        if |path| >= 2 && Get(m, path[0]) == Some(NULL) then Panics
        else Document(Obj(FromMap(Updated(m, if |path| >= 2 then path[..2] else path, v))))
  {
    var m := AsMap(merged.fields);
    SplitDotted(path);
    ManualUnfold(merged, Dotted(path), Text(v));
    if |path| < 2 {
      MarshalledUpdate(m, path[0], Text(v));
    } else if Get(m, path[0]) == Some(NULL) {
      SetIntoNull(m, path, Text(v));
    } else {
      SetAnywhere(m, path, v);
    }
  }

  /** What resolving does with the two texts of a mark. */
  lemma ResolveUnfold(merged: Json, field: string, choice: Choice, raw: string, ours: string, theirs: string)
    requires merged.Obj? && !choice.ChoiceManual? && SplitDots(field) != []
    requires GetByPath(Raws(AsMap(merged.fields)), SplitDots(field)) == Some(Text(Str(raw)))
    requires ParseMark(Unescape(raw)) == Some((ours, theirs))
    ensures ResolveField(merged, field, choice, Nil) ==
            Marshalled(SetByPath(Raws(AsMap(merged.fields)), SplitDots(field),
                                 AsRaw(if choice.ChoiceLocal? then ours else theirs)))
  {
  }

  /**
    Resolving a marked field at a path of one or two plain keys, whatever the spacing of the two texts
    in the mark.  A side that is present goes back to its place and nothing else changes.  An absent
    one blanks the document when it stands at the top; one level down it turns the whole object
    around it into null.
   */
  lemma ResolveMarked(merged: Json, path: seq<string>, x: string, o: Option<Json>, y: string, t: Option<Json>,
                      choice: Choice)
    requires PlainPath(path) && |path| <= 2 && !choice.ChoiceManual?
    requires merged.Obj? && SpellsOption(x, o) && SpellsOption(y, t)
    requires At(Some(merged), path) == Some(Str(Escape(MarkText(x, y))))
    ensures ResolveField(merged, Dotted(path), choice, Nil)
         == match Side(choice, o, t)
            case Some(v) => Document(Obj(FromMap(Updated(AsMap(merged.fields), path, v))))
            case None => if |path| == 1 then Blanked
                         else Document(Obj(FromMap(AsMap(merged.fields)[path[0] := NULL])))
  {
    var raw := Escape(MarkText(x, y));
    SplitDotted(path);
    MarkReads(x, o, y, t);
    GetMarked(merged, path, raw);
    ResolveUnfold(merged, Dotted(path), choice, raw, x, y);
    var v := Side(choice, o, t);
    if v.Some? { SetWritten(AsMap(merged.fields), path, v.value); } else { SetBroken(AsMap(merged.fields), path); }
  }

  /** Where the merged document holds a reported conflict: its mark, or above it an object. */
  lemma ConflictPlace(base: Option<Json>, ours: Option<Json>, theirs: Option<Json>, c: Conflict)
    requires MergeJSON(base, ours, theirs, []).Merged? && c in MergeJSON(base, ours, theirs, []).conflicts
    ensures c.path != [] && MergeJSON(base, ours, theirs, []).doc.Obj?
    ensures At(Some(MergeJSON(base, ours, theirs, []).doc), c.path) == Some(MarkConflict(c.ours, c.theirs))
    ensures |c.path| > 2 ==> AllObjects(None, At(Some(MergeJSON(base, ours, theirs, []).doc), c.path[..2]),
                                              At(Some(MergeJSON(base, ours, theirs, []).doc), c.path[..2]))
  {
    MergeJSONUnfold(base, ours, theirs, []);
    PlaceIn(Root(base), Root(ours), Root(theirs), c, MergeJSON(base, ours, theirs, []).doc);
  }

  lemma PlaceIn(b: Members, o: Members, t: Members, c: Conflict, doc: Json)
    requires c in MergeMaps(b, o, t, []).1 && doc.Obj? && AsMap(doc.fields) == MergeMaps(b, o, t, []).0
    ensures c.path != [] && At(Some(doc), c.path) == Some(MarkConflict(c.ours, c.theirs))
    ensures |c.path| > 2 ==> AllObjects(None, At(Some(doc), c.path[..2]), At(Some(doc), c.path[..2]))
  {
    var p := ConflictsSound(b, o, t, [], c);
    assert [] + p == p;
    MergeFate(b, o, t, [], p);
    if |p| > 2 { DeepPlace(b, o, t, p, doc); }
  }

  lemma DeepPlace(b: Members, o: Members, t: Members, p: seq<string>, doc: Json)
    requires ReachedIn(b, o, t, p) && |p| > 2 && doc.Obj? && AsMap(doc.fields) == MergeMaps(b, o, t, []).0
    ensures AllObjects(None, At(Some(doc), p[..2]), At(Some(doc), p[..2]))
  {
    DeepPath(b, o, t, p);
    MergeFate(b, o, t, [], p[..2]);
  }

  predicate OptWellFormed(v: Option<Json>) {
    v.Some? ==> WellFormed(v.value)
  }

  lemma RawTextSpells(v: Option<Json>)
    requires OptWellFormed(v)
    ensures SpellsOption(RawText(v), v)
  {
    if v.Some? { PrintSpells(v.value); }
  }

  /**
    Which conflicts of a merge can be resolved by choosing a side.  Paths of more than two keys are
    refused; a side that is present goes back to its place; an absent one blanks the document at a
    path of one key, and at a path of two keys makes null of the object around the field.
   */
  lemma ResolveMergedConflict(base: Option<Json>, ours: Option<Json>, theirs: Option<Json>, c: Conflict, choice: Choice)
    requires MergeJSON(base, ours, theirs, []).Merged? && c in MergeJSON(base, ours, theirs, []).conflicts
    requires PlainPath(c.path) && OptWellFormed(c.ours) && OptWellFormed(c.theirs) && !choice.ChoiceManual?
    ensures var r := ResolveField(MergeJSON(base, ours, theirs, []).doc, Dotted(c.path), choice, Nil);
      var v := Side(choice, c.ours, c.theirs);
      && (r.Refused? <==> |c.path| > 2)
      && (r.Blanked? <==> |c.path| == 1 && v.None?)
      && (r.Document? <==> |c.path| <= 2 && (|c.path| == 2 || v.Some?))
      && (r.Document? && v.Some? ==> At(Some(r.doc), c.path) == v)
      && (r.Document? && v.None? ==> At(Some(r.doc), [c.path[0]]) == Some(NULL) && At(Some(r.doc), c.path) == None)
  {
    ConflictPlace(base, ours, theirs, c);
    var doc, v := MergeJSON(base, ours, theirs, []).doc, Side(choice, c.ours, c.theirs);
    if |c.path| <= 2 {
      RawTextSpells(c.ours);
      RawTextSpells(c.theirs);
      ResolveMarked(doc, c.path, RawText(c.ours), c.ours, RawText(c.theirs), c.theirs, choice);
      if v.Some? { UpdatedAt(AsMap(doc.fields), c.path, v.value); } else { NulledAt(AsMap(doc.fields), c.path); }
    } else {
      DeepRefused(doc, c.path, choice);
    }
  }

  lemma NulledAt(m: Members, path: seq<string>)
    requires path != [] && |path| <= 2
    ensures var doc := Obj(FromMap(m[path[0] := NULL]));
      At(Some(doc), [path[0]]) == Some(NULL) && (|path| == 2 ==> At(Some(doc), path) == None)
  {
    var doc := Obj(FromMap(m[path[0] := NULL]));
    MapRoundTrip(m[path[0] := NULL]);
    AtShort(Some(doc), [path[0]]);
    AtShort(Some(doc), path);
  }

  // ---- an example ----

  lemma PlainKey(c: char)
    requires c != '\\'
    ensures Unescape([c]) == [c]
  {
    assert [c][1..] == "";
  }

  lemma OneMember(k: char, v: Json)
    requires k != '\\'
    ensures AsMap([Field([k], v)]) == map[[k] := v]
  {
    PlainKey(k);
    var fields := [Field([k], v)];
    assert fields[..0] == [];
  }

  lemma TwoMembers(k: char, v: Json, l: char, w: Json)
    requires k != '\\' && l != '\\'
    ensures AsMap([Field([k], v), Field([l], w)]) == map[[k] := v, [l] := w]
  {
    PlainKey(l);
    OneMember(k, v);
    var fields := [Field([k], v), Field([l], w)];
    assert fields[..1] == [Field([k], v)];
  }

  const ONE := Lit("1")
  const TWO := Lit("2")
  const BASE := Obj([Field("f", Obj([Field("p", ONE), Field("q", ONE)]))])
  const OURS := Obj([Field("f", Obj([Field("q", TWO)]))])
  const THEIRS := Obj([Field("f", Obj([Field("p", TWO), Field("q", ONE)]))])

  lemma ExampleMembers()
    ensures Root(Some(BASE)) == map["f" := BASE.fields[0].value]
    ensures Root(Some(OURS)) == map["f" := OURS.fields[0].value]
    ensures Root(Some(THEIRS)) == map["f" := THEIRS.fields[0].value]
    ensures MembersOf(Some(BASE.fields[0].value)) == map["p" := ONE, "q" := ONE]
    ensures MembersOf(Some(OURS.fields[0].value)) == map["q" := TWO]
    ensures MembersOf(Some(THEIRS.fields[0].value)) == map["p" := TWO, "q" := ONE]
  {
    OneMember('f', BASE.fields[0].value);
    OneMember('f', OURS.fields[0].value);
    OneMember('f', THEIRS.fields[0].value);
    TwoMembers('p', ONE, 'q', ONE);
    OneMember('q', TWO);
    TwoMembers('p', TWO, 'q', ONE);
  }

  lemma ExampleAt(k: string)
    requires k == "p" || k == "q"
    ensures var b, o, t := Root(Some(BASE)), Root(Some(OURS)), Root(Some(THEIRS));
      && ReachedIn(b, o, t, ["f", k])
      && MapAt(b, ["f", k]) == Some(ONE)
      && MapAt(o, ["f", k]) == (if k == "p" then None else Some(TWO))
      && MapAt(t, ["f", k]) == Some(if k == "p" then TWO else ONE)
  {
    var b, o, t := Root(Some(BASE)), Root(Some(OURS)), Root(Some(THEIRS));
    ExampleMembers();
    var p := ["f", k];
    assert p[1..] == [k] && [k][1..] == [];
    assert Splits(Get(b, "f"), Get(o, "f"), Get(t, "f"));
    AtShort(Get(b, "f"), [k]);
    AtShort(Get(o, "f"), [k]);
    AtShort(Get(t, "f"), [k]);
    assert Reached(Child(Get(b, "f"), k), Child(Get(o, "f"), k), Child(Get(t, "f"), k), []);
  }

  lemma ExampleMerges()
    ensures MergeJSON(Some(BASE), Some(OURS), Some(THEIRS), []).Merged?
  {
  }

  /** Members in which the client removed f.p and changed f.q, and the server changed f.p. */
  ghost predicate RemovedAndChanged(b: Members, o: Members, t: Members) {
    && ReachedIn(b, o, t, ["f", "p"]) && ReachedIn(b, o, t, ["f", "q"])
    && MapAt(b, ["f", "p"]) == Some(ONE) && MapAt(o, ["f", "p"]) == None && MapAt(t, ["f", "p"]) == Some(TWO)
    && MapAt(b, ["f", "q"]) == Some(ONE) && MapAt(o, ["f", "q"]) == Some(TWO) && MapAt(t, ["f", "q"]) == Some(ONE)
  }

  lemma RemovedIsContested(b: Members, o: Members, t: Members)
    requires ReachedIn(b, o, t, ["f", "p"])
    requires MapAt(b, ["f", "p"]) == Some(ONE) && MapAt(o, ["f", "p"]) == None && MapAt(t, ["f", "p"]) == Some(TWO)
    ensures Conflict(["f", "p"], Some(ONE), None, Some(TWO)) in MergeMaps(b, o, t, []).1
  {
    ConflictsComplete(b, o, t, [], ["f", "p"]);
    assert [] + ["f", "p"] == ["f", "p"];
  }

  lemma ChangeIsTaken(b: Members, o: Members, t: Members)
    requires ReachedIn(b, o, t, ["f", "q"])
    requires MapAt(b, ["f", "q"]) == Some(ONE) && MapAt(o, ["f", "q"]) == Some(TWO) && MapAt(t, ["f", "q"]) == Some(ONE)
    ensures MapAt(MergeMaps(b, o, t, []).0, ["f", "q"]) == Some(TWO)
  {
    MergeFate(b, o, t, [], ["f", "q"]);
  }

  lemma MergeOfSuch(base: Json, ours: Json, theirs: Json)
    requires RemovedAndChanged(Root(Some(base)), Root(Some(ours)), Root(Some(theirs)))
    requires MergeJSON(Some(base), Some(ours), Some(theirs), []).Merged?
    ensures var r := MergeJSON(Some(base), Some(ours), Some(theirs), []);
      && At(Some(r.doc), ["f", "q"]) == Some(TWO)
      && Conflict(["f", "p"], Some(ONE), None, Some(TWO)) in r.conflicts
  {
    MergeJSONUnfold(Some(base), Some(ours), Some(theirs), []);
    RemovedIsContested(Root(Some(base)), Root(Some(ours)), Root(Some(theirs)));
    ChangeIsTaken(Root(Some(base)), Root(Some(ours)), Root(Some(theirs)));
  }

  lemma ExampleMerge()
    ensures var r := MergeJSON(Some(BASE), Some(OURS), Some(THEIRS), []);
      && r.Merged? && At(Some(r.doc), ["f", "q"]) == Some(TWO)
      && Conflict(["f", "p"], Some(ONE), None, Some(TWO)) in r.conflicts
  {
    ExampleMerges();
    ExampleAt("p");
    ExampleAt("q");
    MergeOfSuch(BASE, OURS, THEIRS);
  }

  /** The client removed f.p and the server changed it: keeping the client's side loses f.q as well. */
  lemma SiblingLostExample()
    ensures var r := MergeJSON(Some(BASE), Some(OURS), Some(THEIRS), []);
      r.Merged? && At(Some(r.doc), ["f", "q"]) == Some(TWO) &&
      var s := ResolveField(r.doc, "f.p", ChoiceLocal, Nil);
      s.Document? && At(Some(s.doc), ["f"]) == Some(NULL)
  {
    ExampleMerge();
    ResolveExample(Conflict(["f", "p"], Some(ONE), None, Some(TWO)));
  }

  lemma ResolveExample(c: Conflict)
    requires MergeJSON(Some(BASE), Some(OURS), Some(THEIRS), []).Merged?
    requires c in MergeJSON(Some(BASE), Some(OURS), Some(THEIRS), []).conflicts
    requires c == Conflict(["f", "p"], Some(ONE), None, Some(TWO))
    ensures var s := ResolveField(MergeJSON(Some(BASE), Some(OURS), Some(THEIRS), []).doc, "f.p", ChoiceLocal, Nil);
      s.Document? && At(Some(s.doc), ["f"]) == Some(NULL)
  {
    DottedFP();
    assert WellFormed(TWO);
    ResolveMergedConflict(Some(BASE), Some(OURS), Some(THEIRS), c, ChoiceLocal);
  }

  lemma DottedFP()
    ensures Dotted(["f", "p"]) == "f.p" && PlainPath(["f", "p"])
  {
    var path := ["f", "p"];
    assert path[..1] == ["f"] && ["f"][..0] == [];
    assert Dotted(["f"]) == "f";
    assert "f" + "." + "p" == "f.p";
  }

  lemma DeepRefused(doc: Json, p: seq<string>, choice: Choice)
    requires doc.Obj? && PlainPath(p) && |p| > 2 && !choice.ChoiceManual?
    requires At(Some(doc), p[..2]).Some? && At(Some(doc), p[..2]).value.Obj?
    ensures ResolveField(doc, Dotted(p), choice, Nil).Refused?
  {
    SplitDotted(p);
    AtShort(Some(doc), p[..2]);
    assert GetByPath(Raws(AsMap(doc.fields)), p) == Some(Text(At(Some(doc), p[..2]).value));
  }

  /** Above a contested path of three or more keys lie objects that were merged member by member. */
  lemma DeepPath(b: Members, o: Members, t: Members, p: seq<string>)
    requires ReachedIn(b, o, t, p) && |p| > 2
    ensures ReachedIn(b, o, t, p[..2]) && Splits(MapAt(b, p[..2]), MapAt(o, p[..2]), MapAt(t, p[..2]))
  {
    var q := p[..2];
    var rest := p[1..];
    assert q[1..] == [p[1]] && q[1..][1..] == [] && rest[0] == p[1] && rest[1..] != [];
    assert Reached(Child(Get(b, p[0]), p[1]), Child(Get(o, p[0]), p[1]), Child(Get(t, p[0]), p[1]), rest[1..]);
    AtShort(Get(b, p[0]), q[1..]);
    AtShort(Get(o, p[0]), q[1..]);
    AtShort(Get(t, p[0]), q[1..]);
    assert Reached(Get(b, p[0]), Get(o, p[0]), Get(t, p[0]), q[1..]);
  }
}
