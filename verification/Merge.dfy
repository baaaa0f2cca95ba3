/**
  The three-way JSON merger of `internal/merge/merge.go`.  `None` stands for Go's nil raw message
  (a member that is absent).  The functions give the result; `Merger.MergeObjects` is the
  in-place algorithm that fills the output map and appends to the conflict list.
 */
module Merge {
  import opened Base
  import opened StringLiteral
  import opened StringOrder
  import opened Json
  import opened JsonText

  /** `path` is the list of keys; the source stores it joined with dots, see `Dotted`. */
  datatype Conflict = Conflict(path: seq<string>, base: Option<Json>, ours: Option<Json>, theirs: Option<Json>)

  function Dotted(path: seq<string>): string {
    if path == [] then ""
    else
      var prefix, k := Dotted(path[..|path| - 1]), path[|path| - 1];
      if prefix == "" then k else prefix + "." + k
  }

  // ---- conflict marks ----

  const MARK_START := "<<<<<<< ours"
  const MARK_SEP := "======="
  const MARK_END := ">>>>>>> theirs"

  function RawText(v: Option<Json>): string {
    if v.Some? then Print(v.value) else ""
  }

  function MarkText(ours: string, theirs: string): string {
    MARK_START + "\n" + ours + "\n" + MARK_SEP + "\n" + theirs + "\n" + MARK_END
  }

  /** The mark as a string value; the source keeps the white space of the two texts, a tree has none. */
  function MarkConflict(ours: Option<Json>, theirs: Option<Json>): Json {
    Str(Escape(MarkText(RawText(ours), RawText(theirs))))
  }

  // ---- the merge ----

  predicate Decided(b: Option<Json>, o: Option<Json>, t: Option<Json>) {
    o == b || t == b || o == t
  }

  /** The base may be absent; both sides must be objects. */
  predicate AllObjects(b: Option<Json>, o: Option<Json>, t: Option<Json>) {
    (b.None? || b.value.Obj?) && o.Some? && o.value.Obj? && t.Some? && t.value.Obj?
  }

  function MembersOf(v: Option<Json>): Members {
    if v.Some? && v.value.Obj? then AsMap(v.value.fields) else map[]
  }

  ghost function OptDepth(v: Option<Json>): nat {
    if v.Some? then Depth(v.value) else 0
  }

  function MergeValue(b: Option<Json>, o: Option<Json>, t: Option<Json>, path: seq<string>)
    : (Option<Json>, seq<Conflict>)
    decreases OptDepth(o), 0, 0
  {
    if o == b then (t, [])
    else if t == b then (o, [])
    else if o == t then (o, [])
    else if AllObjects(b, o, t) then
      ObjDepth(o.value.fields);
      var (m, conflicts) := MergeMaps(MembersOf(b), MembersOf(o), MembersOf(t), path);
      (Some(Obj(FromMap(m))), conflicts)
    else
      (Some(MarkConflict(o, t)), [Conflict(path, b, o, t)])
  }

  function MergeMaps(b: Members, o: Members, t: Members, path: seq<string>): (Members, seq<Conflict>)
    decreases MapDepth(o), 2, 0
  {
    MergeKeys(b, o, t, path, SortedKeys(b.Keys + o.Keys + t.Keys))
  }

  function MergeKeys(b: Members, o: Members, t: Members, path: seq<string>, ks: seq<string>)
    : (Members, seq<Conflict>)
    decreases MapDepth(o), 1, |ks|
  {
    if ks == [] then (map[], [])
    else
      var k := ks[|ks| - 1];
      var (m, conflicts) := MergeKeys(b, o, t, path, ks[..|ks| - 1]);
      var (v, more) := MergeValue(Get(b, k), Get(o, k), Get(t, k), path + [k]);
      (m[k := v.Or(NULL)], conflicts + more)
  }

  lemma MergeKeysSnoc(b: Members, o: Members, t: Members, path: seq<string>, ks: seq<string>, i: nat)
    requires i < |ks|
    ensures var k, r, v := ks[i], MergeKeys(b, o, t, path, ks[..i]),
                MergeValue(Get(b, ks[i]), Get(o, ks[i]), Get(t, ks[i]), path + [ks[i]]);
      MergeKeys(b, o, t, path, ks[..i + 1]) == (r.0[k := v.0.Or(NULL)], r.1 + v.1)
  {
    assert ks[..i + 1][..i] == ks[..i];
  }

  lemma Appended(a: seq<Conflict>, b: seq<Conflict>, c: seq<Conflict>)
    ensures a + b + c == a + (b + c)
  {
  }

  datatype Outcome = Failed(reason: string) | Merged(doc: Json, conflicts: seq<Conflict>) {
    predicate HasConflict() requires Merged? { conflicts != [] }
  }

  /** An immutable field that the base has must not differ in ours. */
  predicate BreaksImmutable(b: Members, o: Members, f: string) {
    f in b && Get(b, f) != Get(o, f)
  }

  function MergeJSON(base: Option<Json>, ours: Option<Json>, theirs: Option<Json>, immutable: seq<string>): Outcome {
    if ours.None? || theirs.None? then Failed("empty input")
    else if ParseObject(ours.value).None? then Failed("ours is not an object")
    else if ParseObject(theirs.value).None? then Failed("theirs is not an object")
    else if base.Some? && ParseObject(base.value).None? then Failed("base is not an object")
    else
      var b := if base.Some? then ParseObject(base.value).value else map[];
      MergeParsed(b, ParseObject(ours.value).value, ParseObject(theirs.value).value, immutable)
  }

  function MergeParsed(b: Members, o: Members, t: Members, immutable: seq<string>): Outcome {
    if exists i :: 0 <= i < |immutable| && BreaksImmutable(b, o, immutable[i])
    then Failed("an immutable field was changed")
    else
      var (m, conflicts) := MergeMaps(b, o, t, []);
      Merged(Obj(FromMap(m)), conflicts)
  }

  // ---- the algorithm as the source runs it ----

  class Result {
    var conflicts: seq<Conflict>

    constructor ()
      ensures conflicts == []
    {
      conflicts := [];
    }
  }

  class Merger {
    static method MergeOne(res: Result, b: Option<Json>, o: Option<Json>, t: Option<Json>, path: seq<string>)
      returns (out: Option<Json>)
      modifies res
      ensures out == MergeValue(b, o, t, path).0
      ensures res.conflicts == old(res.conflicts) + MergeValue(b, o, t, path).1
      decreases OptDepth(o), 0, 0
    {
      if o == b {
        return t;
      } else if t == b {
        return o;
      } else if o == t {
        return o;
      } else if AllObjects(b, o, t) {
        ObjDepth(o.value.fields);
        var m := MergeObjects(res, MembersOf(b), MembersOf(o), MembersOf(t), path);
        return Some(Obj(FromMap(m)));
      } else {
        res.conflicts := res.conflicts + [Conflict(path, b, o, t)];
        return Some(MarkConflict(o, t));
      }
    }

    static method MergeObjects(res: Result, b: Members, o: Members, t: Members, path: seq<string>)
      returns (out: Members)
      modifies res
      ensures out == MergeMaps(b, o, t, path).0
      ensures res.conflicts == old(res.conflicts) + MergeMaps(b, o, t, path).1
      decreases MapDepth(o), 2, 0
    {
      var sorted := SortedKeys(b.Keys + o.Keys + t.Keys);
      out := MergeSorted(res, b, o, t, path, sorted);
    }

    static method MergeSorted(res: Result, b: Members, o: Members, t: Members, path: seq<string>, sorted: seq<string>)
      returns (out: Members)
      modifies res
      ensures out == MergeKeys(b, o, t, path, sorted).0
      ensures res.conflicts == old(res.conflicts) + MergeKeys(b, o, t, path, sorted).1
      decreases MapDepth(o), 1, 1
    {
      out := map[];
      var i := 0;
      while i < |sorted|
        invariant 0 <= i <= |sorted|
        invariant out == MergeKeys(b, o, t, path, sorted[..i]).0
        invariant res.conflicts == old(res.conflicts) + MergeKeys(b, o, t, path, sorted[..i]).1
      {
        MergeKeysSnoc(b, o, t, path, sorted, i);
        out := MergeKey(res, b, o, t, path, sorted[i], out, old(res.conflicts), MergeKeys(b, o, t, path, sorted[..i]).1);
        i := i + 1;
      }
      TakeAll(sorted, i);
    }

    /** One turn of the loop; `before` and `found` are the conflicts from outside and from the earlier turns. */
    static method MergeKey(res: Result, b: Members, o: Members, t: Members, path: seq<string>, k: string, sofar: Members,
                           ghost before: seq<Conflict>, ghost found: seq<Conflict>)
      returns (out: Members)
      requires res.conflicts == before + found
      modifies res
      ensures var v := MergeValue(Get(b, k), Get(o, k), Get(t, k), path + [k]);
        out == sofar[k := v.0.Or(NULL)] && res.conflicts == before + (found + v.1)
      decreases MapDepth(o), 1, 0
    {
      var v := MergeOne(res, Get(b, k), Get(o, k), Get(t, k), path + [k]);
      Appended(before, found, MergeValue(Get(b, k), Get(o, k), Get(t, k), path + [k]).1);
      out := sofar[k := v.Or(NULL)];
    }

    static method Run(base: Option<Json>, ours: Option<Json>, theirs: Option<Json>, immutable: seq<string>)
      returns (r: Outcome)
      ensures r == MergeJSON(base, ours, theirs, immutable)
    {
      if ours.None? || theirs.None? { return Failed("empty input"); }
      var om := ParseObject(ours.value);
      if om.None? { return Failed("ours is not an object"); }
      var tm := ParseObject(theirs.value);
      if tm.None? { return Failed("theirs is not an object"); }
      var bm := map[];
      if base.Some? {
        var parsed := ParseObject(base.value);
        if parsed.None? { return Failed("base is not an object"); }
        bm := parsed.value;
      }
      r := RunParsed(bm, om.value, tm.value, immutable);
    }

    static method CheckImmutable(bm: Members, om: Members, immutable: seq<string>) returns (broken: bool)
      ensures broken <==> exists i :: 0 <= i < |immutable| && BreaksImmutable(bm, om, immutable[i])
    {
      var i := 0;
      while i < |immutable|
        invariant 0 <= i <= |immutable|
        invariant forall j :: 0 <= j < i ==> !BreaksImmutable(bm, om, immutable[j])
      {
        if BreaksImmutable(bm, om, immutable[i]) {
          return true;
        }
        i := i + 1;
      }
      return false;
    }

    static method RunParsed(bm: Members, om: Members, tm: Members, immutable: seq<string>) returns (r: Outcome)
      ensures r == MergeParsed(bm, om, tm, immutable)
    {
      var broken := CheckImmutable(bm, om, immutable);
      if broken { return Failed("an immutable field was changed"); }
      var res := new Result();
      var m := MergeObjects(res, bm, om, tm, []);
      var found := MergeMaps(bm, om, tm, []);
      assert [] + found.1 == found.1;
      r := Merged(Obj(FromMap(m)), res.conflicts);
    }
  }
}
