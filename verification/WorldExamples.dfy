/** Runs in which a row is mislabelled, and in which an unpushed edit is destroyed. */
module WorldExamples {
  import opened Base
  import opened Json
  import opened JsonText
  import opened Wire
  import opened Server
  import opened ServerHistory
  import opened Client
  import opened Agreement
  import opened ClientSafety
  import opened Labels
  import opened WorldRuns

  function First(id: Id): Ciphertext { Sealed(7, id, "g", 1, Obj([]), 0) }

  function Second(id: Id): Ciphertext { Sealed(7, id, "g", 1, Obj([]), 1) }

  lemma ShortTexts(id: Id)
    ensures WireSize(First(id)) <= MAX_CIPHERTEXT && WireSize(Second(id)) <= MAX_CIPHERTEXT && WireSize(EMPTY) == 0
  {
    assert Print(Obj([])) == "{}";
    assert "{}"[1..] == "}" && "}"[1..] == "";
    assert Utf8Size("{}") == 2;
  }

  lemma TwoMoves(w: World, a: Move, b: Move)
    ensures Reaches(w, [a, b], Next(Next(w, a), b))
  {
    OneMove(w, a);
    ThenMove(w, [a], Next(w, a), b);
    assert [a] + [b] == [a, b];
  }

  ghost predicate GroupAt(s: State, kv: int) {
    && s.users == map["u" := User("u", "u", "pu", true, true)]
    && s.groups == map["g" := Group("g", kv, false, false)]
    && s.members == {Member("g", "u")}
  }

  ghost predicate Holds(s: State, id: Id, e: Entry) {
    s.entries == map[id := e] && s.seqNo == e.seqNo == |s.log|
  }

  /** The client has the row and the keys, and nothing is held or recycled. */
  ghost predicate Has(c: Store, id: Id, row: Row, deks: map<Slot, Key>) {
    c.rows == map[id := row] && c.deks == deks && c.held == {} && c.states == map[] && c.recycle == map[]
  }

  // ---- an entry written on another device of user u and pulled ----

  function Opening(): seq<Move> {
    [Others(DoCreateUser("u", "u", "u", "pu", true, true)), Others(DoCreateGroup("g", "g", "u"))]
  }

  function Writing(id: Id, base: int, ct: Ciphertext): Move {
    Others(Push("u", Mutation(id, "g", base, 1, ct, false), 0))
  }

  function Pulling(id: Id): seq<Move> {
    [Learn(map[Slot("g", 1) := 7]), Receive(Change(id, "g", 1, 1, First(id), false))]
  }

  function Shared(id: Id): seq<Move> {
    Opening() + [Writing(id, 0, First(id))] + Pulling(id)
  }

  ghost predicate IsShared(w: World, id: Id) {
    && GroupAt(w.server, 1) && Holds(w.server, id, Entry("g", 1, 1, First(id), false, 0))
    && Has(w.client, id, Row("g", 1, 1, First(id), Some(Obj([])), None, false, false, false), map[Slot("g", 1) := 7])
  }

  lemma GroupOpens() returns (w: World)
    ensures Reaches(START, Opening(), w)
    ensures GroupAt(w.server, 1) && w.server.entries == map[] && w.server.seqNo == 0 && w.server.log == []
    ensures w.client == EMPTY_STORE
  {
    w := Next(Next(START, Opening()[0]), Opening()[1]);
    TwoMoves(START, Opening()[0], Opening()[1]);
  }

  lemma FirstWrite(w: World, id: Id)
    requires GroupAt(w.server, 1) && w.server.entries == map[] && w.server.seqNo == 0 && w.server.log == []
    ensures var v := Next(w, Writing(id, 0, First(id)));
      && v.client == w.client && GroupAt(v.server, 1) && Holds(v.server, id, Entry("g", 1, 1, First(id), false, 0))
      && Genuine(v.server.log, Change(id, "g", 1, 1, First(id), false))
  {
    ShortTexts(id);
    var m := Mutation(id, "g", 0, 1, First(id), false);
    assert Accepts(w.server, "u", m);
    assert Below(Upsert(w.server, m, 0).entries, "g", 1) == {};
  }

  lemma FirstPull(w: World, id: Id)
    requires w.client == EMPTY_STORE && Genuine(w.server.log, Change(id, "g", 1, 1, First(id), false))
    ensures var v := Next(Next(w, Pulling(id)[0]), Pulling(id)[1]);
      v.server == w.server && Has(v.client, id, Row("g", 1, 1, First(id), Some(Obj([])), None, false, false, false),
                                  map[Slot("g", 1) := 7])
  {
  }

  lemma SharedRuns(id: Id) returns (w: World)
    ensures Reaches(START, Shared(id), w) && IsShared(w, id)
  {
    var empty := GroupOpens();
    FirstWrite(empty, id);
    ThenMove(START, Opening(), empty, Writing(id, 0, First(id)));
    var written := Next(empty, Writing(id, 0, First(id)));
    FirstPull(written, id);
    w := Next(Next(written, Pulling(id)[0]), Pulling(id)[1]);
    TwoMoves(written, Pulling(id)[0], Pulling(id)[1]);
    Then(START, Opening() + [Writing(id, 0, First(id))], written, Pulling(id), w);
  }

  // ---- an edit destroyed ----

  function OverEdit(id: Id, text: Json): seq<Move> {
    Shared(id) + [Edit("g", id, text), Writing(id, 1, EMPTY)]
  }

  lemma JunkWritten(w: World, id: Id)
    requires GroupAt(w.server, 1) && Holds(w.server, id, Entry("g", 1, 1, First(id), false, 0))
    ensures var v := Next(w, Writing(id, 1, EMPTY));
      v.client == w.client && Genuine(v.server.log, Change(id, "g", 2, 1, EMPTY, false))
  {
    ShortTexts(id);
    assert Accepts(w.server, "u", Mutation(id, "g", 1, 1, EMPTY, false));
  }

  lemma EditDestroyed(c: Store, id: Id, text: Json)
    requires Has(c, id, Row("g", 1, 1, First(id), Some(Obj([])), None, false, false, false), map[Slot("g", 1) := 7])
    ensures var d, ch := PutEntry(c, "g", id, text), Change(id, "g", 2, 1, EMPTY, false);
      && UnpushedEdit(d, id) && Unreadable(d, ch)
      && var e := ApplyChange(d, ch);
         id in e.rows && e.rows[id].cache.None? && e.rows[id].base.None? && !e.rows[id].dirty
  {
  }

  /** Reachable: the client edits, another device's unreadable version comes, and the edit is gone. */
  lemma UnreadableChangeExample(id: Id, text: Json)
    ensures var w, ch := RunWorld(START, OverEdit(id, text)), Change(id, "g", 2, 1, EMPTY, false);
      && UnpushedEdit(w.client, id) && Genuine(w.server.log, ch) && Unreadable(w.client, ch)
      && var d := Next(w, Receive(ch)).client;
         id in d.rows && d.rows[id].cache.None? && d.rows[id].base.None? && !d.rows[id].dirty
  {
    var w := SharedRuns(id);
    var edited := Next(w, Edit("g", id, text));
    JunkWritten(edited, id);
    EditDestroyed(w.client, id, text);
    TwoMoves(w, Edit("g", id, text), Writing(id, 1, EMPTY));
    Then(START, Shared(id), w, [Edit("g", id, text), Writing(id, 1, EMPTY)], Next(edited, Writing(id, 1, EMPTY)));
  }

  // ---- a restore that mislabels ----

  function Rotating(id: Id): seq<Move> {
    [Writing(id, 1, Second(id)), Others(Step.Upload("u", "g", 2, [Wire.Upload("u", Wrapped("pu", 8))]))]
  }

  function Resealing(id: Id): seq<Move> {
    [Learn(map[Slot("g", 2) := 8]), Reseal("g", 2, [id])]
  }

  function Deleting(id: Id): seq<Move> {
    [Delete(id), PushDirty("u", [id], [[]], 0)]
  }

  /**
    Another device writes version 2 under the old key; this one, still at version 1, rotates the group
    and re-encrypts; then the entry is deleted and the deletion refused.
   */
  function Relabel(id: Id): seq<Move> {
    Shared(id) + Rotating(id) + Resealing(id) + Deleting(id)
  }

  function Keys(): map<Slot, Key> { map[Slot("g", 1) := 7, Slot("g", 2) := 8] }

  lemma SecondWrite(w: World, id: Id)
    requires GroupAt(w.server, 1) && Holds(w.server, id, Entry("g", 1, 1, First(id), false, 0))
    ensures var v := Next(w, Rotating(id)[0]);
      v.client == w.client && GroupAt(v.server, 1) && Holds(v.server, id, Entry("g", 2, 1, Second(id), false, 0))
  {
    ShortTexts(id);
    var m := Mutation(id, "g", 1, 1, Second(id), false);
    assert Accepts(w.server, "u", m);
    assert Below(Upsert(w.server, m, 0).entries, "g", 1) == {};
  }

  lemma Rotation(w: World, id: Id)
    requires GroupAt(w.server, 1) && Holds(w.server, id, Entry("g", 2, 1, Second(id), false, 0))
    ensures var v := Next(w, Rotating(id)[1]);
      v.client == w.client && GroupAt(v.server, 2) && Holds(v.server, id, Entry("g", 2, 1, Second(id), false, 0))
  {
    var ups := [Wire.Upload("u", Wrapped("pu", 8))];
    assert UploadUsers(ups) == {"u"} by { assert ups[0].user == "u"; }
    assert Active(w.server, "g") == {"u"};
    assert id in Below(w.server.entries, "g", 2);
  }

  lemma Rewriting(w: World, id: Id)
    requires Has(w.client, id, Row("g", 1, 1, First(id), Some(Obj([])), None, false, false, false), map[Slot("g", 1) := 7])
    ensures var v := Next(Next(w, Resealing(id)[0]), Resealing(id)[1]);
      v.server == w.server && Has(v.client, id, Row("g", 1, 2, Sealed(8, id, "g", 2, Obj([]), w.client.nonce),
                                                    Some(Obj([])), None, true, false, false), Keys())
  {
    var c := Next(w, Resealing(id)[0]).client;
    assert c.deks == Keys();
    assert [id][..0] == [];
    assert Reencrypt(c, "g", 2, []) == c;
  }

  lemma OnePush(s: State, user: Id, m: Mutation, now: int)
    ensures PushAmong(s, user, [m], [[]], now) == (PushOne(s, user, m, now).0, [PushOne(s, user, m, now).1])
  {
    var ms, gaps: seq<seq<Step>> := [m], [[]];
    assert PushAmong(s, user, ms[..0], gaps[..0], now) == (s, []);
    assert Run(s, gaps[0]) == s;
    assert PushAmong(s, user, ms, gaps, now).1 == [PushOne(s, user, m, now).1];
  }

  /** The version is checked before the base; only the base is wrong. */
  lemma DeletionRefused(s: State, id: Id)
    requires GroupAt(s, 2) && Holds(s, id, Entry("g", 2, 1, Second(id), false, 0))
    ensures PushOne(s, "u", Mutation(id, "g", 1, 2, EMPTY, true), 0) ==
            (s, Refused(id, ERR_CONFLICT, Some(Change(id, "g", 2, 1, Second(id), false))))
  {
    ShortTexts(id);
  }

  lemma DeletionSent(c: Store, id: Id)
    requires c.rows == map[id := Row("g", 1, 2, EMPTY, None, None, true, true, false)] && c.held == {}
    ensures Outgoing(c, [id]) == [Mutation(id, "g", 1, 2, EMPTY, true)]
  {
    assert [id][..0] == [] && Outgoing(c, [id][..0]) == [];
  }

  lemma DeletionAnswered(w: World, id: Id)
    requires GroupAt(w.server, 2) && Holds(w.server, id, Entry("g", 2, 1, Second(id), false, 0)) && w.client.held == {}
    requires w.client.rows == map[id := Row("g", 1, 2, EMPTY, None, None, true, true, false)]
    ensures var v := Next(w, Deleting(id)[1]);
      && v.client.deks == w.client.deks && v.client.recycle == w.client.recycle
      && v.client.rows == map[id := Row("g", 2, 1, EMPTY, None, None, true, true, false)]
  {
    DeletionSent(w.client, id);
    var ms := [Mutation(id, "g", 1, 2, EMPTY, true)];
    OnePush(w.server, "u", ms[0], 0);
    DeletionRefused(w.server, id);
    var r := Refused(id, ERR_CONFLICT, Some(Change(id, "g", 2, 1, Second(id), false)));
    assert ms[..0] == [] && [r][..0] == [];
    assert HandleResults(w.client, ms[..0], [r][..0]) == w.client;
    assert HandleResults(w.client, ms, [r]) == HandleResult(w.client, ms[0], r);
  }

  lemma RotatedRuns(id: Id) returns (w: World)
    ensures Reaches(START, Shared(id) + Rotating(id) + Resealing(id), w)
    ensures GroupAt(w.server, 2) && Holds(w.server, id, Entry("g", 2, 1, Second(id), false, 0))
    ensures exists n :: Has(w.client, id, Row("g", 1, 2, Sealed(8, id, "g", 2, Obj([]), n), Some(Obj([])), None,
                                              true, false, false), Keys())
  {
    var shared := SharedRuns(id);
    SecondWrite(shared, id);
    var overtaken := Next(shared, Rotating(id)[0]);
    Rotation(overtaken, id);
    var rotated := Next(overtaken, Rotating(id)[1]);
    TwoMoves(shared, Rotating(id)[0], Rotating(id)[1]);
    Then(START, Shared(id), shared, Rotating(id), rotated);
    Rewriting(rotated, id);
    w := Next(Next(rotated, Resealing(id)[0]), Resealing(id)[1]);
    TwoMoves(rotated, Resealing(id)[0], Resealing(id)[1]);
    Then(START, Shared(id) + Rotating(id), rotated, Resealing(id), w);
  }

  lemma DeletedRow(c: Store, id: Id, ct: Ciphertext)
    requires Has(c, id, Row("g", 1, 2, ct, Some(Obj([])), None, true, false, false), Keys())
    ensures var d := DeleteEntry(c, id);
      && d.rows == map[id := Row("g", 1, 2, EMPTY, None, None, true, true, false)]
      && d.recycle == map[id := ct] && d.deks == Keys() && d.held == {}
  {
  }

  lemma RefusedRuns(id: Id) returns (w: World, n: nat)
    ensures Reaches(START, Relabel(id), w)
    ensures w.client.rows == map[id := Row("g", 2, 1, EMPTY, None, None, true, true, false)]
    ensures w.client.deks == Keys() && w.client.recycle == map[id := Sealed(8, id, "g", 2, Obj([]), n)]
  {
    var rotated := RotatedRuns(id);
    n :| Has(rotated.client, id, Row("g", 1, 2, Sealed(8, id, "g", 2, Obj([]), n), Some(Obj([])), None,
                                     true, false, false), Keys());
    DeletedRow(rotated.client, id, Sealed(8, id, "g", 2, Obj([]), n));
    var deleted := Next(rotated, Delete(id));
    DeletionAnswered(deleted, id);
    w := Next(deleted, Deleting(id)[1]);
    TwoMoves(rotated, Deleting(id)[0], Deleting(id)[1]);
    Then(START, Shared(id) + Rotating(id) + Resealing(id), rotated, Deleting(id), w);
  }

  lemma RestoredUnderAnotherLabel(c: Store, id: Id, n: nat)
    requires c.rows == map[id := Row("g", 2, 1, EMPTY, None, None, true, true, false)] && c.deks == Keys()
    requires c.recycle == map[id := Sealed(8, id, "g", 2, Obj([]), n)]
    ensures Mislabels(c, id)
    ensures var d := RestoreEntry(c, id);
      id in d.rows && !Labelled(d.rows[id]) && d.rows[id].kv == 1 && d.rows[id].ct.kv == 2
  {
  }

  /** Reachable: the restored row is to be pushed as version 1 and is sealed under version 2. */
  lemma RestoreMislabelsExample(id: Id)
    ensures var w := RunWorld(START, Relabel(id));
      && Mislabels(w.client, id)
      && var d := Next(w, Restore(id)).client;
         id in d.rows && !Labelled(d.rows[id]) && d.rows[id].kv == 1 && d.rows[id].ct.kv == 2
  {
    var w, n := RefusedRuns(id);
    RestoredUnderAnotherLabel(w.client, id, n);
  }
}
