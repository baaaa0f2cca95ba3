/**
  What the merger guarantees, path by path.  A path is reached when every proper prefix of it was
  changed on both sides into different objects, so the merge recursed into it.
 */
module MergeCorrect {
  import opened Base
  import opened StringOrder
  import opened Json
  import opened JsonText
  import opened Merge

  function Child(v: Option<Json>, k: string): Option<Json> {
    Get(MembersOf(v), k)
  }

  function At(v: Option<Json>, p: seq<string>): Option<Json>
    decreases |p|
  {
    if p == [] then v else At(Child(v, p[0]), p[1..])
  }

  function MapAt(m: Members, p: seq<string>): Option<Json>
    requires p != []
  {
    At(Get(m, p[0]), p[1..])
  }

  predicate Splits(b: Option<Json>, o: Option<Json>, t: Option<Json>) {
    !Decided(b, o, t) && AllObjects(b, o, t)
  }

  predicate Clashes(b: Option<Json>, o: Option<Json>, t: Option<Json>) {
    !Decided(b, o, t) && !AllObjects(b, o, t)
  }

  predicate Reached(b: Option<Json>, o: Option<Json>, t: Option<Json>, p: seq<string>)
    decreases |p|
  {
    p == [] || (Splits(b, o, t) && Reached(Child(b, p[0]), Child(o, p[0]), Child(t, p[0]), p[1..]))
  }

  /** The three documents are always entered at the root; below it the rule above applies. */
  predicate ReachedIn(b: Members, o: Members, t: Members, p: seq<string>) {
    p != [] && Reached(Get(b, p[0]), Get(o, p[0]), Get(t, p[0]), p[1..])
  }

  /** Three-way verdict: the side that changed wins. */
  function Verdict(b: Option<Json>, o: Option<Json>, t: Option<Json>): Option<Json>
    requires Decided(b, o, t)
  {
    if o == b then t else o
  }

  /** `m` is what the merge should hold at a reached place where the inputs hold b, o and t. */
  ghost predicate Expected(b: Option<Json>, o: Option<Json>, t: Option<Json>, m: Option<Json>) {
    if b.None? && o.None? && t.None? then m.None?
    else if Decided(b, o, t) then m == Some(Verdict(b, o, t).Or(NULL))
    else if AllObjects(b, o, t) then
      m.Some? && m.value.Obj? &&
      MembersOf(m).Keys == MembersOf(b).Keys + MembersOf(o).Keys + MembersOf(t).Keys
    else m == Some(MarkConflict(o, t))
  }

  lemma {:induction false} MergeKeysDomain(b: Members, o: Members, t: Members, path: seq<string>, ks: seq<string>)
    ensures forall k :: k in MergeKeys(b, o, t, path, ks).0 <==> k in ks
    decreases |ks|
  {
    if ks != [] {
      var n := |ks| - 1;
      MergeKeysDomain(b, o, t, path, ks[..n]);
      assert ks == ks[..n] + [ks[n]];
    }
  }

  lemma {:induction false} MergeKeysAt(b: Members, o: Members, t: Members, path: seq<string>, ks: seq<string>, i: nat)
    requires Sorted(ks) && i < |ks|
    ensures Get(MergeKeys(b, o, t, path, ks).0, ks[i])
         == Some(MergeValue(Get(b, ks[i]), Get(o, ks[i]), Get(t, ks[i]), path + [ks[i]]).0.Or(NULL))
    decreases |ks|
  {
    var n := |ks| - 1;
    if i < n {
      MergeKeysAt(b, o, t, path, ks[..n], i);
      if ks[i] == ks[n] { SortedDistinct(ks, i, n); }
    }
  }

  lemma MergeMapsDomain(b: Members, o: Members, t: Members, path: seq<string>)
    ensures MergeMaps(b, o, t, path).0.Keys == b.Keys + o.Keys + t.Keys
  {
    var ks := SortedKeys(b.Keys + o.Keys + t.Keys);
    MergeKeysDomain(b, o, t, path, ks);
    var m, all := MergeMaps(b, o, t, path).0, b.Keys + o.Keys + t.Keys;
    assert forall k :: k in m <==> k in ks;
    assert m.Keys == all;
  }

  lemma MergeMapsAt(b: Members, o: Members, t: Members, path: seq<string>, k: string)
    requires k in b || k in o || k in t
    ensures Get(MergeMaps(b, o, t, path).0, k)
         == Some(MergeValue(Get(b, k), Get(o, k), Get(t, k), path + [k]).0.Or(NULL))
  {
    var ks := SortedKeys(b.Keys + o.Keys + t.Keys);
    assert k in ks;
    var i :| 0 <= i < |ks| && ks[i] == k;
    MergeKeysAt(b, o, t, path, ks, i);
  }

  /** Where the merge recursed, the result is the merge of the members. */
  lemma MergeSplit(b: Option<Json>, o: Option<Json>, t: Option<Json>, path: seq<string>)
    requires Splits(b, o, t)
    ensures MergeValue(b, o, t, path).0.Some?
    ensures MembersOf(MergeValue(b, o, t, path).0) == MergeMaps(MembersOf(b), MembersOf(o), MembersOf(t), path).0
    ensures MergeValue(b, o, t, path).1 == MergeMaps(MembersOf(b), MembersOf(o), MembersOf(t), path).1
    ensures Expected(b, o, t, MergeValue(b, o, t, path).0)
  {
    MapRoundTrip(MergeMaps(MembersOf(b), MembersOf(o), MembersOf(t), path).0);
    MergeMapsDomain(MembersOf(b), MembersOf(o), MembersOf(t), path);
  }

  lemma MergeHere(b: Option<Json>, o: Option<Json>, t: Option<Json>, path: seq<string>)
    requires b.Some? || o.Some? || t.Some?
    ensures Expected(b, o, t, Some(MergeValue(b, o, t, path).0.Or(NULL)))
  {
    if Splits(b, o, t) { MergeSplit(b, o, t, path); }
  }

  /** The merged document holds the expected value at every reached path, conflicts or not. */
  lemma {:induction false} MergeFate(b: Members, o: Members, t: Members, path: seq<string>, p: seq<string>)
    requires ReachedIn(b, o, t, p)
    ensures Expected(MapAt(b, p), MapAt(o, p), MapAt(t, p), MapAt(MergeMaps(b, o, t, path).0, p))
    decreases |p|
  {
    var k, rest := p[0], p[1..];
    var bk, ok, tk := Get(b, k), Get(o, k), Get(t, k);
    if bk.None? && ok.None? && tk.None? {
      MergeMapsDomain(b, o, t, path);
      assert rest == [];
    } else {
      MergeMapsAt(b, o, t, path, k);
      if rest == [] {
        MergeHere(bk, ok, tk, path + [k]);
      } else {
        MergeSplit(bk, ok, tk, path + [k]);
        assert ReachedIn(MembersOf(bk), MembersOf(ok), MembersOf(tk), rest);
        MergeFate(MembersOf(bk), MembersOf(ok), MembersOf(tk), path + [k], rest);
      }
    }
  }

  // ---- the conflict list ----

  /** p is a reached path where both sides changed differently and at least one is not an object. */
  predicate Contested(b: Members, o: Members, t: Members, p: seq<string>) {
    ReachedIn(b, o, t, p) && Clashes(MapAt(b, p), MapAt(o, p), MapAt(t, p))
  }

  function ConflictAt(b: Members, o: Members, t: Members, path: seq<string>, p: seq<string>): Conflict
    requires p != []
  {
    Conflict(path + p, MapAt(b, p), MapAt(o, p), MapAt(t, p))
  }

  /** The conflicts the merge reports under the key k. */
  function Under(b: Members, o: Members, t: Members, path: seq<string>, k: string): seq<Conflict> {
    MergeValue(Get(b, k), Get(o, k), Get(t, k), path + [k]).1
  }

  lemma {:induction false} FromUnder(b: Members, o: Members, t: Members, path: seq<string>, ks: seq<string>, c: Conflict)
    returns (i: nat)
    requires c in MergeKeys(b, o, t, path, ks).1
    ensures i < |ks| && c in Under(b, o, t, path, ks[i])
    decreases |ks|
  {
    var n := |ks| - 1;
    if c in MergeKeys(b, o, t, path, ks[..n]).1 {
      i := FromUnder(b, o, t, path, ks[..n], c);
    } else {
      i := n;
    }
  }

  lemma {:induction false} UnderIncluded(b: Members, o: Members, t: Members, path: seq<string>, ks: seq<string>, i: nat, c: Conflict)
    requires i < |ks| && c in Under(b, o, t, path, ks[i])
    ensures c in MergeKeys(b, o, t, path, ks).1
    decreases |ks|
  {
    if i < |ks| - 1 { UnderIncluded(b, o, t, path, ks[..|ks| - 1], i, c); }
  }

  /** Stepping into the member k of three objects that split. */
  lemma StepInto(b: Members, o: Members, t: Members, path: seq<string>, k: string, q: seq<string>)
    requires q != [] && Splits(Get(b, k), Get(o, k), Get(t, k))
    ensures var b', o', t' := MembersOf(Get(b, k)), MembersOf(Get(o, k)), MembersOf(Get(t, k));
      && (Contested(b, o, t, [k] + q) <==> Contested(b', o', t', q))
      && ConflictAt(b, o, t, path, [k] + q) == ConflictAt(b', o', t', path + [k], q)
  {
    assert ([k] + q)[1..] == q;
    assert path + [k] + q == path + ([k] + q);
  }

  /** Every reported conflict is at a contested path and carries the three values found there. */
  lemma {:induction false} ConflictsSound(b: Members, o: Members, t: Members, path: seq<string>, c: Conflict)
    returns (p: seq<string>)
    requires c in MergeMaps(b, o, t, path).1
    ensures Contested(b, o, t, p) && c == ConflictAt(b, o, t, path, p)
    decreases MapDepth(o), 1
  {
    var ks := SortedKeys(b.Keys + o.Keys + t.Keys);
    var i := FromUnder(b, o, t, path, ks, c);
    p := ValueConflictsSound(b, o, t, path, ks[i], c);
  }

  lemma {:induction false} ValueConflictsSound(b: Members, o: Members, t: Members, path: seq<string>, k: string, c: Conflict)
    returns (p: seq<string>)
    requires c in Under(b, o, t, path, k)
    ensures Contested(b, o, t, p) && c == ConflictAt(b, o, t, path, p)
    decreases MapDepth(o), 0
  {
    var bk, ok, tk := Get(b, k), Get(o, k), Get(t, k);
    if Splits(bk, ok, tk) {
      ObjDepth(ok.value.fields);
      MergeSplit(bk, ok, tk, path + [k]);
      var q := ConflictsSound(MembersOf(bk), MembersOf(ok), MembersOf(tk), path + [k], c);
      StepInto(b, o, t, path, k, q);
      p := [k] + q;
    } else {
      ClashHere(b, o, t, path, k);
      p := [k];
    }
  }

  lemma ClashHere(b: Members, o: Members, t: Members, path: seq<string>, k: string)
    requires !Splits(Get(b, k), Get(o, k), Get(t, k))
    ensures Contested(b, o, t, [k]) <==> Clashes(Get(b, k), Get(o, k), Get(t, k))
    ensures Under(b, o, t, path, k) == if Contested(b, o, t, [k]) then [ConflictAt(b, o, t, path, [k])] else []
  {
    assert [k][1..] == [];
  }

  /** Every contested path is reported. */
  lemma {:induction false} ConflictsComplete(b: Members, o: Members, t: Members, path: seq<string>, p: seq<string>)
    requires Contested(b, o, t, p)
    ensures ConflictAt(b, o, t, path, p) in MergeMaps(b, o, t, path).1
    decreases |p|
  {
    var k, rest := p[0], p[1..];
    var bk, ok, tk := Get(b, k), Get(o, k), Get(t, k);
    assert p == [k] + rest;
    if rest != [] {
      MergeSplit(bk, ok, tk, path + [k]);
      StepInto(b, o, t, path, k, rest);
      ConflictsComplete(MembersOf(bk), MembersOf(ok), MembersOf(tk), path + [k], rest);
    } else {
      assert [k] + rest == [k];
      ClashHere(b, o, t, path, k);
    }
    UnderMaps(b, o, t, path, k, ConflictAt(b, o, t, path, p));
  }

  lemma UnderMaps(b: Members, o: Members, t: Members, path: seq<string>, k: string, c: Conflict)
    requires c in Under(b, o, t, path, k)
    ensures c in MergeMaps(b, o, t, path).1
  {
    var ks := SortedKeys(b.Keys + o.Keys + t.Keys);
    assert k in b.Keys + o.Keys + t.Keys;
    assert k in ks;
    var i :| 0 <= i < |ks| && ks[i] == k;
    UnderIncluded(b, o, t, path, ks, i, c);
  }

  predicate DistinctPaths(cs: seq<Conflict>) {
    forall i, j :: 0 <= i < j < |cs| ==> cs[i].path != cs[j].path
  }

  /** All conflicts found under one key lie below that key. */
  lemma ConflictsBelow(b: Members, o: Members, t: Members, path: seq<string>, k: string, c: Conflict)
    requires c in Under(b, o, t, path, k)
    ensures |c.path| > |path| && c.path[|path|] == k
  {
    var bk, ok, tk := Get(b, k), Get(o, k), Get(t, k);
    if Splits(bk, ok, tk) {
      MergeSplit(bk, ok, tk, path + [k]);
      var p := ConflictsSound(MembersOf(bk), MembersOf(ok), MembersOf(tk), path + [k], c);
    }
  }

  lemma {:induction false} DistinctInKeys(b: Members, o: Members, t: Members, path: seq<string>, ks: seq<string>)
    requires Sorted(ks)
    ensures DistinctPaths(MergeKeys(b, o, t, path, ks).1)
    decreases MapDepth(o), 1, |ks|
  {
    if ks != [] {
      var n := |ks| - 1;
      DistinctInKeys(b, o, t, path, ks[..n]);
      DistinctUnder(b, o, t, path, ks[n]);
      var early, late := MergeKeys(b, o, t, path, ks[..n]).1, Under(b, o, t, path, ks[n]);
      forall c, d | c in early && d in late ensures c.path != d.path {
        var i := FromUnder(b, o, t, path, ks[..n], c);
        ConflictsBelow(b, o, t, path, ks[i], c);
        ConflictsBelow(b, o, t, path, ks[n], d);
        if ks[i] == ks[n] { SortedDistinct(ks, i, n); }
      }
      assert MergeKeys(b, o, t, path, ks).1 == early + late;
    }
  }

  lemma {:induction false} DistinctUnder(b: Members, o: Members, t: Members, path: seq<string>, k: string)
    ensures DistinctPaths(Under(b, o, t, path, k))
    decreases MapDepth(o), 0, 0
  {
    var bk, ok, tk := Get(b, k), Get(o, k), Get(t, k);
    if Splits(bk, ok, tk) {
      ObjDepth(ok.value.fields);
      MergeSplit(bk, ok, tk, path + [k]);
      ConflictPathsDistinct(MembersOf(bk), MembersOf(ok), MembersOf(tk), path + [k]);
    }
  }

  /** No path is reported twice. */
  lemma {:induction false} ConflictPathsDistinct(b: Members, o: Members, t: Members, path: seq<string>)
    ensures DistinctPaths(MergeMaps(b, o, t, path).1)
    decreases MapDepth(o), 2, 0
  {
    DistinctInKeys(b, o, t, path, SortedKeys(b.Keys + o.Keys + t.Keys));
  }

  // ---- symmetry ----

  predicate Mirrored(c: Conflict, d: Conflict) {
    d == Conflict(c.path, c.base, c.theirs, c.ours)
  }

  predicate MirroredLists(cs: seq<Conflict>, ds: seq<Conflict>) {
    |cs| == |ds| && forall i :: 0 <= i < |cs| ==> Mirrored(cs[i], ds[i])
  }

  lemma {:induction false} SwapValue(b: Option<Json>, o: Option<Json>, t: Option<Json>, path: seq<string>)
    ensures MirroredLists(MergeValue(b, o, t, path).1, MergeValue(b, t, o, path).1)
    ensures MergeValue(b, o, t, path).1 == [] ==> MergeValue(b, o, t, path).0 == MergeValue(b, t, o, path).0
    decreases OptDepth(o), 0, 0
  {
    if Splits(b, o, t) {
      ObjDepth(o.value.fields);
      SwapMaps(MembersOf(b), MembersOf(o), MembersOf(t), path);
    }
  }

  lemma {:induction false} SwapKeys(b: Members, o: Members, t: Members, path: seq<string>, ks: seq<string>)
    ensures MirroredLists(MergeKeys(b, o, t, path, ks).1, MergeKeys(b, t, o, path, ks).1)
    ensures MergeKeys(b, o, t, path, ks).1 == [] ==>
            MergeKeys(b, o, t, path, ks).0 == MergeKeys(b, t, o, path, ks).0
    decreases MapDepth(o), 1, |ks|
  {
    if ks != [] {
      var k := ks[|ks| - 1];
      SwapKeys(b, o, t, path, ks[..|ks| - 1]);
      SwapValue(Get(b, k), Get(o, k), Get(t, k), path + [k]);
    }
  }

  /** Exchanging the sides mirrors every conflict, and without conflicts gives the same document. */
  lemma {:induction false} SwapMaps(b: Members, o: Members, t: Members, path: seq<string>)
    ensures MirroredLists(MergeMaps(b, o, t, path).1, MergeMaps(b, t, o, path).1)
    ensures MergeMaps(b, o, t, path).1 == [] ==> MergeMaps(b, o, t, path).0 == MergeMaps(b, t, o, path).0
    decreases MapDepth(o), 2, 0
  {
    assert b.Keys + o.Keys + t.Keys == b.Keys + t.Keys + o.Keys;
    SwapKeys(b, o, t, path, SortedKeys(b.Keys + o.Keys + t.Keys));
  }

  // ---- whole documents ----

  function Root(v: Option<Json>): Members {
    if v.Some? then ParseObject(v.value).Or(map[]) else map[]
  }

  /** MergeJSON on three parsed documents is the merge of their members, entered at the root. */
  lemma MergeJSONUnfold(base: Option<Json>, ours: Option<Json>, theirs: Option<Json>, immutable: seq<string>)
    requires MergeJSON(base, ours, theirs, immutable).Merged?
    ensures var r := MergeJSON(base, ours, theirs, immutable);
      r.doc.Obj? && AsMap(r.doc.fields) == MergeMaps(Root(base), Root(ours), Root(theirs), []).0 &&
      r.conflicts == MergeMaps(Root(base), Root(ours), Root(theirs), []).1
  {
    MapRoundTrip(MergeMaps(Root(base), Root(ours), Root(theirs), []).0);
  }

  /**
    The contract of MergeJSON.  Every reached path holds what the three-way rule says; the conflict
    list names exactly the contested paths, once each.
   */
  lemma MergeJSONCorrect(base: Option<Json>, ours: Option<Json>, theirs: Option<Json>, immutable: seq<string>)
    requires MergeJSON(base, ours, theirs, immutable).Merged?
    ensures var r := MergeJSON(base, ours, theirs, immutable);
      var b, o, t := Root(base), Root(ours), Root(theirs);
      && (forall p :: ReachedIn(b, o, t, p) ==>
            Expected(MapAt(b, p), MapAt(o, p), MapAt(t, p), At(Some(r.doc), p)))
      && (forall c :: c in r.conflicts ==> exists p :: Contested(b, o, t, p) && c == ConflictAt(b, o, t, [], p))
      && (forall p :: Contested(b, o, t, p) ==> ConflictAt(b, o, t, [], p) in r.conflicts)
      && DistinctPaths(r.conflicts)
  {
    var r := MergeJSON(base, ours, theirs, immutable);
    var b, o, t := Root(base), Root(ours), Root(theirs);
    MergeJSONUnfold(base, ours, theirs, immutable);
    ConflictPathsDistinct(b, o, t, []);
    forall p | ReachedIn(b, o, t, p)
      ensures Expected(MapAt(b, p), MapAt(o, p), MapAt(t, p), At(Some(r.doc), p))
    {
      MergeFate(b, o, t, [], p);
    }
    forall c | c in r.conflicts
      ensures exists p :: Contested(b, o, t, p) && c == ConflictAt(b, o, t, [], p)
    {
      var p := ConflictsSound(b, o, t, [], c);
    }
    forall p | Contested(b, o, t, p) ensures ConflictAt(b, o, t, [], p) in r.conflicts {
      ConflictsComplete(b, o, t, [], p);
    }
  }

  /**
    Merging is symmetric: it reports the same paths with the sides exchanged, and gives the same
    document when nothing is contested.
   */
  lemma MergeJSONSymmetric(base: Option<Json>, ours: Option<Json>, theirs: Option<Json>)
    requires MergeJSON(base, ours, theirs, []).Merged?
    ensures var r, s := MergeJSON(base, ours, theirs, []), MergeJSON(base, theirs, ours, []);
      s.Merged? && MirroredLists(r.conflicts, s.conflicts) && (!r.HasConflict() ==> r.doc == s.doc)
  {
    SwapMaps(Root(base), Root(ours), Root(theirs), []);
  }
}
