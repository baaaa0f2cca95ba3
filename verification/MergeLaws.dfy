/** When a merge succeeds at all, and what it gives when one side changed nothing or both changed alike. */
module MergeLaws {
  import opened Base
  import opened StringOrder
  import opened Json
  import opened Merge
  import opened MergeCorrect

  /** An object, or the bare null that reads as one without members. */
  predicate ReadsAsObject(j: Json) {
    j.Obj? || j == Lit("null")
  }

  predicate ReadableBase(base: Option<Json>) {
    base.Some? ==> ReadsAsObject(base.value)
  }

  /** The value of a top-level field of a document. */
  function FieldOf(doc: Option<Json>, f: string): Option<Json> {
    if doc.Some? && doc.value.Obj? && f in AsMap(doc.value.fields) then Some(AsMap(doc.value.fields)[f]) else None
  }

  /**
    A merge succeeds exactly when both sides are there and read as objects, the base is absent or
    reads as one, and no immutable field that the base has is different in ours.
   */
  lemma MergedIff(base: Option<Json>, ours: Option<Json>, theirs: Option<Json>, immutable: seq<string>)
    ensures MergeJSON(base, ours, theirs, immutable).Merged? <==>
      && ours.Some? && theirs.Some? && ReadsAsObject(ours.value) && ReadsAsObject(theirs.value) && ReadableBase(base)
      && forall f :: f in immutable && FieldOf(base, f).Some? ==> FieldOf(ours, f) == FieldOf(base, f)
  {
    if ours.Some? && theirs.Some? && ReadsAsObject(ours.value) && ReadsAsObject(theirs.value) && ReadableBase(base) {
      RootField(base);
      RootField(ours);
      ParsedIff(base, ours, theirs, immutable);
    } else {
      NotParsed(base, ours, theirs, immutable);
    }
  }

  lemma NotParsed(base: Option<Json>, ours: Option<Json>, theirs: Option<Json>, immutable: seq<string>)
    requires !(ours.Some? && theirs.Some? && ReadsAsObject(ours.value) && ReadsAsObject(theirs.value) && ReadableBase(base))
    ensures MergeJSON(base, ours, theirs, immutable).Failed?
  {
  }

  lemma ParsedIff(base: Option<Json>, ours: Option<Json>, theirs: Option<Json>, immutable: seq<string>)
    requires ours.Some? && theirs.Some? && ReadsAsObject(ours.value) && ReadsAsObject(theirs.value) && ReadableBase(base)
    requires forall f :: Get(Root(base), f) == FieldOf(base, f)
    requires forall f :: Get(Root(ours), f) == FieldOf(ours, f)
    ensures MergeJSON(base, ours, theirs, immutable).Merged? <==>
      forall f :: f in immutable && FieldOf(base, f).Some? ==> FieldOf(ours, f) == FieldOf(base, f)
  {
    ImmutablesKept(base, ours, immutable);
    assert MergeJSON(base, ours, theirs, immutable) == MergeParsed(Root(base), Root(ours), Root(theirs), immutable);
    MergeUnlessBroken(Root(base), Root(ours), Root(theirs), immutable);
  }

  ghost predicate Broken(b: Members, o: Members, immutable: seq<string>) {
    exists i :: 0 <= i < |immutable| && BreaksImmutable(b, o, immutable[i])
  }

  lemma MergeUnlessBroken(b: Members, o: Members, t: Members, immutable: seq<string>)
    ensures MergeParsed(b, o, t, immutable).Merged? <==> !Broken(b, o, immutable)
  {
    if Broken(b, o, immutable) { BrokenFails(b, o, t, immutable); } else { UnbrokenMerges(b, o, t, immutable); }
  }

  lemma BrokenFails(b: Members, o: Members, t: Members, immutable: seq<string>)
    requires Broken(b, o, immutable)
    ensures MergeParsed(b, o, t, immutable).Failed?
  {
  }

  lemma UnbrokenMerges(b: Members, o: Members, t: Members, immutable: seq<string>)
    requires !Broken(b, o, immutable)
    ensures MergeParsed(b, o, t, immutable).Merged?
  {
  }

  lemma RootField(doc: Option<Json>)
    requires ReadableBase(doc)
    ensures forall f :: Get(Root(doc), f) == FieldOf(doc, f)
  {
  }

  lemma ImmutablesKept(base: Option<Json>, ours: Option<Json>, immutable: seq<string>)
    requires forall f :: Get(Root(base), f) == FieldOf(base, f)
    requires forall f :: Get(Root(ours), f) == FieldOf(ours, f)
    ensures Broken(Root(base), Root(ours), immutable) <==>
            !forall f :: f in immutable && FieldOf(base, f).Some? ==> FieldOf(ours, f) == FieldOf(base, f)
  {
    if f :| f in immutable && FieldOf(base, f).Some? && FieldOf(ours, f) != FieldOf(base, f) {
      var i :| 0 <= i < |immutable| && immutable[i] == f;
      assert Get(Root(base), f) == FieldOf(base, f) && Get(Root(ours), f) == FieldOf(ours, f);
      assert BreaksImmutable(Root(base), Root(ours), immutable[i]);
    }
    if i :| 0 <= i < |immutable| && BreaksImmutable(Root(base), Root(ours), immutable[i]) {
      var f := immutable[i];
      assert Get(Root(base), f) == FieldOf(base, f) && Get(Root(ours), f) == FieldOf(ours, f);
    }
  }

  /** Without an ancestor a merge of two readable documents never fails, whatever is immutable. */
  lemma AbsentBaseMerges(ours: Json, theirs: Json, immutable: seq<string>)
    requires ReadsAsObject(ours) && ReadsAsObject(theirs)
    ensures MergeJSON(None, Some(ours), Some(theirs), immutable).Merged?
  {
    MergedIff(None, Some(ours), Some(theirs), immutable);
  }

  /** With every key decided, nothing is in conflict. */
  lemma DecidedEverywhere(b: Members, o: Members, t: Members)
    requires forall k :: Decided(Get(b, k), Get(o, k), Get(t, k))
    ensures MergeMaps(b, o, t, []).1 == []
  {
    forall k ensures Under(b, o, t, [], k) == [] { assert Decided(Get(b, k), Get(o, k), Get(t, k)); }
    if MergeMaps(b, o, t, []).1 != [] {
      var i := FromUnder(b, o, t, [], SortedKeys(b.Keys + o.Keys + t.Keys), MergeMaps(b, o, t, []).1[0]);
    }
  }

  lemma OneValue(b: Option<Json>, v: Option<Json>, path: seq<string>)
    ensures MergeValue(b, v, v, path).0 == MergeValue(b, b, v, path).0 == MergeValue(b, v, b, path).0 == v
  {
  }

  /** The members with a null for each key that is gone. */
  function WithNulls(m: Members, gone: set<string>): Members {
    m + map k | k in gone :: NULL
  }

  lemma SameMembers(m: Members, n: Members)
    requires m.Keys == n.Keys && forall k :: k in m ==> Get(m, k) == Get(n, k)
    ensures m == n
  {
    forall k | k in m ensures m[k] == n[k] { assert Get(m, k) == Get(n, k); }
  }

  /**
    Two equal sides merge into themselves without conflict, except that a key only the ancestor has
    comes back as null.
   */
  lemma EqualSidesMerge(base: Option<Json>, side: Json)
    requires ReadsAsObject(side) && ReadableBase(base)
    ensures var r, b, o := MergeJSON(base, Some(side), Some(side), []), Root(base), Root(Some(side));
      r.Merged? && !r.HasConflict() && r.doc.Obj? && AsMap(r.doc.fields) == WithNulls(o, b.Keys - o.Keys)
  {
    var b, o := Root(base), Root(Some(side));
    MergedIff(base, Some(side), Some(side), []);
    MergeJSONUnfold(base, Some(side), Some(side), []);
    DecidedEverywhere(b, o, o);
    EqualMembers(b, o);
  }

  lemma EqualMembers(b: Members, o: Members)
    ensures MergeMaps(b, o, o, []).0 == WithNulls(o, b.Keys - o.Keys)
  {
    var m, n := MergeMaps(b, o, o, []).0, WithNulls(o, b.Keys - o.Keys);
    MergeMapsDomain(b, o, o, []);
    forall k | k in m ensures Get(m, k) == Get(n, k) { EqualMember(b, o, k); }
    SameMembers(m, n);
  }

  lemma EqualMember(b: Members, o: Members, k: string)
    requires k in b || k in o
    ensures Get(MergeMaps(b, o, o, []).0, k) == Get(WithNulls(o, b.Keys - o.Keys), k)
  {
    MergeMapsAt(b, o, o, [], k);
    OneValue(Get(b, k), Get(o, k), [] + [k]);
  }

  /** A side that changed nothing gives way to the other; a key the other removed comes back as null. */
  lemma UnchangedSideGivesWay(base: Json, other: Json)
    requires ReadsAsObject(base) && ReadsAsObject(other)
    ensures var r, b, t := MergeJSON(Some(base), Some(base), Some(other), []), Root(Some(base)), Root(Some(other));
      r.Merged? && !r.HasConflict() && r.doc.Obj? && AsMap(r.doc.fields) == WithNulls(t, b.Keys - t.Keys)
    ensures var r, b, o := MergeJSON(Some(base), Some(other), Some(base), []), Root(Some(base)), Root(Some(other));
      r.Merged? && !r.HasConflict() && r.doc.Obj? && AsMap(r.doc.fields) == WithNulls(o, b.Keys - o.Keys)
  {
    var b, t := Root(Some(base)), Root(Some(other));
    MergedIff(Some(base), Some(base), Some(other), []);
    MergedIff(Some(base), Some(other), Some(base), []);
    MergeJSONUnfold(Some(base), Some(base), Some(other), []);
    MergeJSONUnfold(Some(base), Some(other), Some(base), []);
    DecidedEverywhere(b, b, t);
    DecidedEverywhere(b, t, b);
    OursUnchanged(b, t);
    TheirsUnchanged(b, t);
  }

  lemma OursUnchanged(b: Members, t: Members)
    ensures MergeMaps(b, b, t, []).0 == WithNulls(t, b.Keys - t.Keys)
  {
    var m, n := MergeMaps(b, b, t, []).0, WithNulls(t, b.Keys - t.Keys);
    MergeMapsDomain(b, b, t, []);
    forall k | k in m ensures Get(m, k) == Get(n, k) { OurMember(b, t, k); }
    SameMembers(m, n);
  }

  lemma OurMember(b: Members, t: Members, k: string)
    requires k in b || k in t
    ensures Get(MergeMaps(b, b, t, []).0, k) == Get(WithNulls(t, b.Keys - t.Keys), k)
  {
    MergeMapsAt(b, b, t, [], k);
    OneValue(Get(b, k), Get(t, k), [] + [k]);
  }

  lemma TheirsUnchanged(b: Members, o: Members)
    ensures MergeMaps(b, o, b, []).0 == WithNulls(o, b.Keys - o.Keys)
  {
    var m, n := MergeMaps(b, o, b, []).0, WithNulls(o, b.Keys - o.Keys);
    MergeMapsDomain(b, o, b, []);
    forall k | k in m ensures Get(m, k) == Get(n, k) { TheirMember(b, o, k); }
    SameMembers(m, n);
  }

  lemma TheirMember(b: Members, o: Members, k: string)
    requires k in b || k in o
    ensures Get(MergeMaps(b, o, b, []).0, k) == Get(WithNulls(o, b.Keys - o.Keys), k)
  {
    MergeMapsAt(b, o, b, [], k);
    OneValue(Get(b, k), Get(o, k), [] + [k]);
  }
}
