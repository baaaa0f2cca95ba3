/**
  What the rows of a client say about the server: every version of the client's groups at or below
  the cursor is accounted for by the local tables.
 */
module Mirror {
  import opened Base
  import opened Json
  import opened Wire
  import opened Server
  import opened ServerInvariant
  import opened ServerHistory
  import opened Pulling
  import opened Client
  import opened Cursor
  import opened Agreement
  import opened ClientSafety

  // ---- the claim ----

  /** The text the row shows is the one sealed in the version, unless that is on the list of those that did not open. */
  predicate Shows(c: Store, ch: Change)
    requires ch.entry in c.rows
  {
    if ch.seqNo in c.bad then c.rows[ch.entry].cache.None?
    else ch.ct.Sealed? && c.rows[ch.entry].cache == Some(ch.ct.text)
  }

  /** The row is the version: clean, with its ciphertext and text, and nothing older waits behind it. */
  predicate RowIs(c: Store, ch: Change) {
    && ch.entry in c.rows && !ch.deleted
    && !c.rows[ch.entry].dirty && !c.rows[ch.entry].deleted && !c.rows[ch.entry].conflict
    && c.rows[ch.entry].seqNo == ch.seqNo && c.rows[ch.entry].ct == ch.ct && Shows(c, ch)
    && (ch.entry in c.waiting ==> c.waiting[ch.entry].seqNo == ch.seqNo)
  }

  /** The version waits for its key. */
  predicate Waits(c: Store, ch: Change) {
    !ch.deleted && ch.entry in c.waiting && c.waiting[ch.entry].seqNo == ch.seqNo
  }

  /** The user has a say: an unpushed edit or deletion, or an unresolved conflict that nothing newer waits behind. */
  predicate UserHasSay(c: Store, id: Id) {
    id in c.rows && var row := c.rows[id];
    row.dirty || row.deleted || (row.conflict && (id in c.waiting ==> c.waiting[id].seqNo <= row.seqNo))
  }

  /** A deletion that arrived. */
  predicate Gone(c: Store, ch: Change) {
    ch.deleted && ch.entry !in c.rows && ch.entry !in c.waiting
  }

  predicate Mirrored(c: Store, ch: Change) {
    RowIs(c, ch) || Waits(c, ch) || UserHasSay(c, ch.entry) || Gone(c, ch)
  }

  /** A live change that does not open while another version of its entry waits: it hides the one behind it. */
  predicate Misleads(c: Store, ch: Change) {
    Unreadable(c, ch) && ch.entry in c.waiting && c.waiting[ch.entry].seqNo != ch.seqNo
  }

  // ---- one change ----

  /** A change mirrors itself, provided that nothing newer of its entry waits. */
  lemma ApplyMirrors(c: Store, ch: Change)
    requires ch.entry in c.waiting ==> c.waiting[ch.entry].seqNo <= ch.seqNo
    requires !Misleads(c, ch)
    ensures Mirrored(ApplyChange(c, ch), ch)
  {
    if ch.deleted {
      TombstoneMirrors(c, ch);
    } else if HasKey(c, ch.group, ch.kv) {
      var text := Decrypt(c.deks, ch.group, ch.entry, ch.ct);
      if text.Some? { ReadableMirrors(c, ch, text.value); } else { assert RowIs(ApplyUnreadable(c, ch), ch); }
    } else {
      assert Waits(ApplyChange(c, ch), ch);
    }
  }

  lemma TombstoneMirrors(c: Store, ch: Change)
    requires ch.deleted && (ch.entry in c.waiting ==> c.waiting[ch.entry].seqNo <= ch.seqNo)
    ensures Mirrored(ApplyTombstone(c, ch), ch)
  {
    var d := ApplyTombstone(c, ch);
    assert UserHasSay(d, ch.entry) || Gone(d, ch);
  }

  lemma ReadableMirrors(c: Store, ch: Change, text: Json)
    requires !ch.deleted && HasKey(c, ch.group, ch.kv) && Decrypt(c.deks, ch.group, ch.entry, ch.ct) == Some(text)
    requires ch.entry in c.waiting ==> c.waiting[ch.entry].seqNo <= ch.seqNo
    ensures Mirrored(ApplyReadable(c, ch, text), ch)
  {
    if ch.entry in c.rows && c.rows[ch.entry].dirty {
      assert UserHasSay(ApplyOverEdit(c, ch, c.rows[ch.entry], AutoMerge(c.rows[ch.entry], text)), ch.entry);
    }
  }

  /** An older version that was waiting does not undo what mirrors a newer one. */
  lemma OldFlushKeeps(c: Store, ch: Change)
    requires Mirrored(c, ch) && ch.entry in c.waiting && c.waiting[ch.entry].seqNo < ch.seqNo
    requires !Unreadable(c, AsLive(ch.entry, c.waiting[ch.entry]))
    ensures Mirrored(ApplyChange(c, AsLive(ch.entry, c.waiting[ch.entry])), ch)
  {
    var id := ch.entry;
    var w := AsLive(id, c.waiting[id]);
    assert UserHasSay(c, id);
    if HasKey(c, w.group, w.kv) {
      var text := Decrypt(c.deks, w.group, id, w.ct).value;
      if c.rows[id].dirty {
        assert UserHasSay(ApplyOverEdit(c, w, c.rows[id], AutoMerge(c.rows[id], text)), id);
      }
      assert UserHasSay(ApplyReadable(c, w, text), id);
    }
  }

  // ---- versions of the client's groups ----

  /** The current version of an entry of one of the groups. */
  ghost predicate OwnVersion(s: State, groups: set<Id>, n: int) {
    CurrentAt(s, n) && ChangeAt(s, n).group in groups
  }

  /** The change is the current version of its entry, or that lies above what is being pulled. */
  ghost predicate Timely(w: World, ch: Change) {
    forall n :: CurrentAt(w.server, n) && ChangeAt(w.server, n).entry == ch.entry ==>
      n == ch.seqNo || (n > w.target && n > w.client.lastSeq)
  }

  /** The cursor, and the changes still to be applied. */
  ghost predicate InboxOk(w: World) {
    && w.client.lastSeq <= w.server.seqNo && w.target <= w.server.seqNo
    && (forall i, j :: 0 <= i < j < |w.inbox| ==> w.inbox[i].entry != w.inbox[j].entry)
    && forall i :: 0 <= i < |w.inbox| ==> Timely(w, w.inbox[i])
  }

  /** The version is mirrored if it is at or below the cursor; above, up to what was pulled, it may still be to come. */
  ghost predicate Covers(w: World, n: int)
    requires CurrentAt(w.server, n)
  {
    && (n <= w.client.lastSeq ==> Mirrored(w.client, ChangeAt(w.server, n)))
    && (n <= w.target ==> ChangeAt(w.server, n) in w.inbox || Mirrored(w.client, ChangeAt(w.server, n)))
  }

  ghost predicate Faithful(w: World, groups: set<Id>) {
    && 0 <= w.client.lastSeq && 0 <= w.target && InboxOk(w)
    && forall n :: OwnVersion(w.server, groups, n) ==> Covers(w, n)
  }

  /** What is mirrored stays so, and no version up to the server's counter becomes current anew. */
  ghost predicate Carries(s: State, c: Store, t: State, d: Store) {
    && s.seqNo <= t.seqNo && d.lastSeq == c.lastSeq
    && forall n :: n <= s.seqNo && CurrentAt(t, n) ==>
         CurrentAt(s, n) && ChangeAt(s, n) == ChangeAt(t, n) &&
         (Mirrored(c, ChangeAt(s, n)) ==> Mirrored(d, ChangeAt(s, n)))
  }

  lemma CarriedInbox(w: World, s: State, c: Store)
    requires InboxOk(w) && Carries(w.server, w.client, s, c)
    ensures InboxOk(w.(server := s, client := c))
  {
    var v := w.(server := s, client := c);
    forall i | 0 <= i < |v.inbox| ensures Timely(v, v.inbox[i]) { assert Timely(w, w.inbox[i]); }
  }

  lemma CarriedFaithful(w: World, groups: set<Id>, s: State, c: Store)
    requires Faithful(w, groups) && Carries(w.server, w.client, s, c)
    ensures Faithful(w.(server := s, client := c), groups)
  {
    CarriedInbox(w, s, c);
    var v := w.(server := s, client := c);
    forall n | OwnVersion(v.server, groups, n) ensures Covers(v, n) {
      if n <= w.server.seqNo { assert OwnVersion(w.server, groups, n) && Covers(w, n); }
    }
  }

  /** What a run must respect: the groups do not change, no page is full of foreign rows, nothing misleads. */
  ghost predicate Orderly(w: World, move: Move, groups: set<Id>) {
    match move
    case Fetch(user) =>
      UserGroups(w.server, user) == groups && !FullForeignPage(Reader(w.server, w.client.lastSeq, {}), user)
    case TakeNext => w.inbox != [] ==> !Misleads(w.client, w.inbox[0])
    case Receive(ch) => Genuine(w.server.log, ch) ==> Timely(w, ch) && !Misleads(w.client, ch)
    case FlushWaiting(ids) =>
      forall id :: id in w.client.waiting && Unreadable(w.client, AsLive(id, w.client.waiting[id])) ==>
        Timely(w, AsLive(id, w.client.waiting[id]))
    case _ => true
  }

  // ---- facts about current versions ----

  /** Nothing of an entry is committed after its current version. */
  lemma CurrentIsLatest(s: State, n: int, k: int)
    requires Stored(s) && CurrentAt(s, n) && Committed(s.log, ChangeAt(s, n).entry, k)
    ensures k <= n && ChangeAt(s, n).seqNo == n && Genuine(s.log, ChangeAt(s, n))
  {
    assert Latest(s.log, n - 1);
  }

  /** Two genuine changes with one number are the same. */
  lemma OneChange(log: seq<Commit>, a: Change, b: Change)
    requires Genuine(log, a) && Genuine(log, b) && a.seqNo == b.seqNo
    ensures a == b
  {
  }

  /** Applying a change of one entry does not affect how another's version is mirrored. */
  lemma ElsewhereMirrored(c: Store, d: Store, id: Id, ch: Change)
    requires OnlyEntry(c, d, id) && ch.entry != id && Mirrored(c, ch) && (ch.seqNo in d.bad <==> ch.seqNo in c.bad)
    ensures Mirrored(d, ch)
  {
    assert Get(d.rows, ch.entry) == Get(c.rows, ch.entry) && Get(d.waiting, ch.entry) == Get(c.waiting, ch.entry);
  }

  /** Applying a change puts at most its own number on the list of those that did not open, or takes it off. */
  lemma OtherNumbersStay(c: Store, ch: Change, n: int)
    requires n != ch.seqNo
    ensures n in ApplyChange(c, ch).bad <==> n in c.bad
  {
  }

  ghost predicate WaitingGenuine(log: seq<Commit>, c: Store) {
    forall id :: id in c.waiting ==> Genuine(log, AsLive(id, c.waiting[id]))
  }

  // ---- applying in a faithful world ----

  /** How a version stands after a change was applied, which is that version if it is of the same entry. */
  lemma AppliedMirrors(s: State, c: Store, ch: Change, n: int)
    requires Stored(s) && WaitingGenuine(s.log, c) && Genuine(s.log, ch) && !Misleads(c, ch) && CurrentAt(s, n)
    requires ChangeAt(s, n).entry == ch.entry ==> n == ch.seqNo
    ensures ChangeAt(s, n).entry == ch.entry ==> Mirrored(ApplyChange(c, ch), ChangeAt(s, n))
    ensures Mirrored(c, ChangeAt(s, n)) ==> Mirrored(ApplyChange(c, ch), ChangeAt(s, n))
  {
    var v := ChangeAt(s, n);
    if v.entry == ch.entry {
      VersionGenuine(s, n);
      OneChange(s.log, v, ch);
      if ch.entry in c.waiting { CurrentIsLatest(s, n, c.waiting[ch.entry].seqNo); }
      ApplyMirrors(c, ch);
    } else if Mirrored(c, v) {
      VersionGenuine(s, n);
      ApplyTouchesOne(c, ch);
      OtherNumbersStay(c, ch, n);
      ElsewhereMirrored(c, ApplyChange(c, ch), ch.entry, v);
    }
  }

  lemma TakenInbox(w: World, c: Store)
    requires InboxOk(w) && w.inbox != [] && c.lastSeq == w.client.lastSeq
    ensures InboxOk(w.(client := c, inbox := w.inbox[1..]))
  {
    var t := w.(client := c, inbox := w.inbox[1..]);
    forall i, j | 0 <= i < j < |t.inbox| ensures t.inbox[i].entry != t.inbox[j].entry {
      assert t.inbox[i] == w.inbox[i + 1] && t.inbox[j] == w.inbox[j + 1];
    }
    forall i | 0 <= i < |t.inbox| ensures Timely(t, t.inbox[i]) { assert Timely(w, w.inbox[i + 1]); }
  }

  lemma TakenCovers(w: World, n: int)
    requires Agrees(w) && InboxOk(w) && w.inbox != [] && !Misleads(w.client, w.inbox[0])
    requires CurrentAt(w.server, n) && Covers(w, n)
    ensures Covers(w.(client := ApplyChange(w.client, w.inbox[0]), inbox := w.inbox[1..]), n)
  {
    CursorKept(w.client, w.inbox[0]);
    if n <= w.client.lastSeq || n <= w.target {
      assert Timely(w, w.inbox[0]);
      AppliedMirrors(w.server, w.client, w.inbox[0], n);
      if ChangeAt(w.server, n) in w.inbox { HeadOrTail(w.inbox, ChangeAt(w.server, n)); }
    }
  }

  lemma HeadOrTail(chs: seq<Change>, ch: Change)
    requires ch in chs
    ensures ch == chs[0] || ch in chs[1..]
  {
  }

  lemma TakeFaithful(w: World, groups: set<Id>)
    requires Agrees(w) && Faithful(w, groups) && w.inbox != [] && !Misleads(w.client, w.inbox[0])
    ensures Faithful(w.(client := ApplyChange(w.client, w.inbox[0]), inbox := w.inbox[1..]), groups)
  {
    var t := w.(client := ApplyChange(w.client, w.inbox[0]), inbox := w.inbox[1..]);
    CursorKept(w.client, w.inbox[0]);
    TakenInbox(w, t.client);
    forall n | OwnVersion(t.server, groups, n) ensures Covers(t, n) { TakenCovers(w, n); }
  }

  lemma CursorKept(c: Store, ch: Change)
    ensures ApplyChange(c, ch).lastSeq == c.lastSeq
  {
  }

  lemma ReceiveFaithful(w: World, groups: set<Id>, ch: Change)
    requires Agrees(w) && Faithful(w, groups) && Genuine(w.server.log, ch) && Timely(w, ch) && !Misleads(w.client, ch)
    ensures Faithful(w.(client := ApplyChange(w.client, ch)), groups)
  {
    var t := w.(client := ApplyChange(w.client, ch));
    CursorKept(w.client, ch);
    forall i | 0 <= i < |t.inbox| ensures Timely(t, t.inbox[i]) { assert Timely(w, w.inbox[i]); }
    forall n | OwnVersion(t.server, groups, n) ensures Covers(t, n) {
      assert Covers(w, n);
      ReceivedCovers(w, ch, n);
    }
  }

  lemma ReceivedCovers(w: World, ch: Change, n: int)
    requires Agrees(w) && Genuine(w.server.log, ch) && Timely(w, ch) && !Misleads(w.client, ch)
    requires CurrentAt(w.server, n) && Covers(w, n)
    ensures Covers(w.(client := ApplyChange(w.client, ch)), n)
  {
    CursorKept(w.client, ch);
    if n <= w.client.lastSeq || n <= w.target { AppliedMirrors(w.server, w.client, ch, n); }
  }

  // ---- flushing ----

  /** A waiting version that does not open is the current one of its entry, if that is n. */
  ghost predicate FlushSafe(s: State, c: Store, n: int)
    requires CurrentAt(s, n)
  {
    var id := ChangeAt(s, n).entry;
    id in c.waiting && Unreadable(c, AsLive(id, c.waiting[id])) ==> c.waiting[id].seqNo == n
  }

  lemma ListingInit<V>(ids: seq<Id>, rows: map<Id, V>)
    requires Listing(ids, rows) && ids != []
    ensures var k := |ids| - 1; Listing(ids[..k], rows) && ids[k] in rows && ids[k] !in ids[..k]
    ensures forall id :: id in ids <==> id in ids[..|ids| - 1] || id == ids[|ids| - 1]
  {
  }

  /** How a version stands after the entries that were waiting have been flushed one by one. */
  lemma {:induction false} FlushMirrors(s: State, c: Store, ids: seq<Id>, n: int)
    requires Stored(s) && WaitingGenuine(s.log, c) && CurrentAt(s, n) && FlushSafe(s, c, n)
    requires Listing(ids, c.waiting) && Mirrored(c, ChangeAt(s, n))
    ensures var d, v := Flush(c, c.waiting, ids), ChangeAt(s, n);
      && Mirrored(d, v) && d.deks == c.deks
      && (v.entry !in ids ==> Get(d.waiting, v.entry) == Get(c.waiting, v.entry))
  {
    if ids != [] {
      var k := |ids| - 1;
      ListingInit(ids, c.waiting);
      FlushMirrors(s, c, ids[..k], n);
      FlushStep(s, c, Flush(c, c.waiting, ids[..k]), ids[k], n);
    }
  }

  lemma FlushStep(s: State, c: Store, d: Store, id: Id, n: int)
    requires Stored(s) && WaitingGenuine(s.log, c) && CurrentAt(s, n) && FlushSafe(s, c, n) && id in c.waiting
    requires Mirrored(d, ChangeAt(s, n)) && d.deks == c.deks
    requires id == ChangeAt(s, n).entry ==> Get(d.waiting, id) == Get(c.waiting, id)
    ensures var ch, v := AsLive(id, c.waiting[id]), ChangeAt(s, n);
      var e := if HasKey(d, ch.group, ch.kv) then ApplyChange(d, ch) else d;
      Mirrored(e, v) && e.deks == c.deks && (v.entry != id ==> Get(e.waiting, v.entry) == Get(d.waiting, v.entry))
  {
    var ch := AsLive(id, c.waiting[id]);
    KeysKept(d, ch);
    ApplyTouchesOne(d, ch);
    if HasKey(d, ch.group, ch.kv) {
      if id == ChangeAt(s, n).entry {
        FlushedMirrors(s, c, d, n);
      } else {
        VersionGenuine(s, n);
        OtherNumbersStay(d, ch, n);
        ElsewhereMirrored(d, ApplyChange(d, ch), id, ChangeAt(s, n));
      }
    }
  }

  lemma FlushedMirrors(s: State, c: Store, d: Store, n: int)
    requires Stored(s) && WaitingGenuine(s.log, c) && CurrentAt(s, n) && FlushSafe(s, c, n)
    requires var v := ChangeAt(s, n);
      && Mirrored(d, v) && v.entry in c.waiting && d.deks == c.deks && Get(d.waiting, v.entry) == Get(c.waiting, v.entry)
    ensures Mirrored(ApplyChange(d, AsLive(ChangeAt(s, n).entry, c.waiting[ChangeAt(s, n).entry])), ChangeAt(s, n))
  {
    var v := ChangeAt(s, n);
    var ch := AsLive(v.entry, c.waiting[v.entry]);
    VersionGenuine(s, n);
    CurrentIsLatest(s, n, ch.seqNo);
    assert d.waiting[v.entry] == c.waiting[v.entry];
    if ch.seqNo == n {
      OneChange(s.log, v, ch);
      ApplyMirrors(d, ch);
    } else {
      OldFlushKeeps(d, v);
    }
  }

  lemma {:induction false} FlushKeepsCursor(c: Store, listed: map<Id, Waiting>, ids: seq<Id>)
    requires forall id :: id in ids ==> id in listed
    ensures Flush(c, listed, ids).lastSeq == c.lastSeq
  {
    if ids != [] {
      var k := |ids| - 1;
      FlushKeepsCursor(c, listed, ids[..k]);
      CursorKept(Flush(c, listed, ids[..k]), AsLive(ids[k], listed[ids[k]]));
    }
  }

  lemma FlushedCovers(w: World, ids: seq<Id>, n: int)
    requires Agrees(w) && Listing(ids, w.client.waiting) && Orderly(w, FlushWaiting(ids), {})
    requires CurrentAt(w.server, n) && Covers(w, n)
    ensures Covers(w.(client := Flush(w.client, w.client.waiting, ids)), n)
  {
    FlushKeepsCursor(w.client, w.client.waiting, ids);
    if Mirrored(w.client, ChangeAt(w.server, n)) && (n <= w.client.lastSeq || n <= w.target) {
      FlushMirrors(w.server, w.client, ids, n);
    }
  }

  lemma FlushFaithful(w: World, groups: set<Id>, ids: seq<Id>)
    requires Agrees(w) && Faithful(w, groups) && Listing(ids, w.client.waiting) && Orderly(w, FlushWaiting(ids), groups)
    ensures Faithful(w.(client := Flush(w.client, w.client.waiting, ids)), groups)
  {
    var t := w.(client := Flush(w.client, w.client.waiting, ids));
    FlushKeepsCursor(w.client, w.client.waiting, ids);
    forall i | 0 <= i < |t.inbox| ensures Timely(t, t.inbox[i]) { assert Timely(w, w.inbox[i]); }
    forall n | OwnVersion(t.server, groups, n) ensures Covers(t, n) {
      assert Covers(w, n);
      FlushedCovers(w, ids, n);
    }
  }

  /** Behind a clean row, an older version that waits and has its key takes the row back. */
  lemma OldFlushHides(c: Store, ch: Change)
    requires ch.entry in c.rows && ch.entry in c.waiting && c.waiting[ch.entry].seqNo != ch.seqNo && !ch.deleted
    requires var row := c.rows[ch.entry]; !row.dirty && !row.deleted && !row.conflict
    requires HasKey(c, c.waiting[ch.entry].group, c.waiting[ch.entry].kv)
    ensures var d := ApplyChange(c, AsLive(ch.entry, c.waiting[ch.entry]));
      ch.entry in d.rows && d.rows[ch.entry].seqNo == c.waiting[ch.entry].seqNo && !Mirrored(d, ch)
  {
  }

  // ---- the server, the pull and the cursor ----

  lemma OthersCarry(s: State, c: Store, step: Step)
    requires Inv(s)
    ensures Carries(s, c, Apply(s, step), c)
  {
    CounterGrows(s, step);
    forall n | n <= s.seqNo && CurrentAt(Apply(s, step), n)
      ensures CurrentAt(s, n) && ChangeAt(s, n) == ChangeAt(Apply(s, step), n)
    {
      OldVersionsStay(s, step, n);
    }
  }

  /** The changes of one pull are current versions of different entries. */
  lemma PulledDistinct(s: State, user: Id, last: int)
    requires Inv(s)
    ensures var chs := Pulled(s, user, last);
      && (forall i, j :: 0 <= i < j < |chs| ==> chs[i].entry != chs[j].entry)
      && forall i :: 0 <= i < |chs| ==> CurrentAt(s, chs[i].seqNo) && chs[i] == ChangeAt(s, chs[i].seqNo)
  {
    var page, chs := Page(s, Clamp(last), PULL_LIMIT), Pulled(s, user, last);
    PageMembers(s, Clamp(last), PULL_LIMIT);
    MineMembers(page, UserGroups(s, user));
    forall i | 0 <= i < |chs| ensures CurrentAt(s, chs[i].seqNo) && chs[i] == ChangeAt(s, chs[i].seqNo) {
      assert chs[i] in chs;
    }
    forall i, j | 0 <= i < j < |chs| ensures chs[i].entry != chs[j].entry {
      assert chs[i].seqNo < chs[j].seqNo;
      VersionGenuine(s, chs[i].seqNo);
      VersionGenuine(s, chs[j].seqNo);
    }
  }

  lemma FetchFaithful(w: World, groups: set<Id>, user: Id)
    requires Agrees(w) && Faithful(w, groups) && Orderly(w, Fetch(user), groups)
    ensures var chs := Pulled(w.server, user, w.client.lastSeq);
      Faithful(w.(inbox := chs, target := NextCursor(w.client.lastSeq, chs, w.server.seqNo)), groups)
  {
    var chs := Pulled(w.server, user, w.client.lastSeq);
    var t := w.(inbox := chs, target := NextCursor(w.client.lastSeq, chs, w.server.seqNo));
    var r := Reader(w.server, w.client.lastSeq, {});
    CursorRange(r, user);
    PulledDistinct(w.server, user, w.client.lastSeq);
    forall i | 0 <= i < |t.inbox| ensures Timely(t, t.inbox[i]) { CurrentTimely(t, t.inbox[i]); }
    forall n | OwnVersion(t.server, groups, n) ensures Covers(t, n) {
      assert Covers(w, n);
      if w.client.lastSeq < n <= t.target { MissedOnlyBeyondForeignPage(r, user, n); }
    }
  }

  lemma CurrentTimely(w: World, ch: Change)
    requires Stored(w.server) && CurrentAt(w.server, ch.seqNo) && ch == ChangeAt(w.server, ch.seqNo)
    ensures Timely(w, ch)
  {
    forall n | CurrentAt(w.server, n) && ChangeAt(w.server, n).entry == ch.entry ensures n == ch.seqNo {
      VersionGenuine(w.server, n);
      VersionGenuine(w.server, ch.seqNo);
    }
  }

  lemma CommitFaithful(w: World, groups: set<Id>)
    requires Faithful(w, groups) && w.inbox == []
    ensures Faithful(w.(client := w.client.(lastSeq := Max(w.client.lastSeq, w.target))), groups)
  {
    var t := w.(client := w.client.(lastSeq := Max(w.client.lastSeq, w.target)));
    forall n | OwnVersion(t.server, groups, n) ensures Covers(t, n) {
      assert Covers(w, n);
      SameTablesMirror(w.client, t.client, ChangeAt(w.server, n));
    }
  }

  lemma SameTablesMirror(c: Store, d: Store, ch: Change)
    requires d.rows == c.rows && d.waiting == c.waiting && d.bad == c.bad
    ensures Mirrored(d, ch) <==> Mirrored(c, ch)
  {
  }

  // ---- pushing ----

  /** What the answers of a batch say about the history before it. */
  ghost predicate AnswersLater(s: State, m: Mutation, r: PushResult) {
    && r.entry == m.entry
    && (r.Accepted? ==> r.newSeq > s.seqNo)
    && (r.Refused? ==> (r.code == ERR_CONFLICT <==> r.current.Some?))
    && (r.Refused? && r.current.Some? ==> forall k :: Committed(s.log, m.entry, k) ==> k <= r.current.value.seqNo)
  }

  lemma AnswerLater(s: State, mid: State, user: Id, m: Mutation, now: int)
    requires Inv(mid) && s.log <= mid.log && s.seqNo <= mid.seqNo
    ensures AnswersLater(s, m, PushOne(mid, user, m, now).1)
  {
    if m.entry in mid.entries {
      assert Latest(mid.log, mid.entries[m.entry].seqNo - 1);
      forall k | Committed(s.log, m.entry, k) ensures k <= mid.entries[m.entry].seqNo {
        assert mid.log[k - 1] == s.log[k - 1];
      }
    }
  }

  /** A version that is current after a run and was there before is unchanged by it. */
  lemma {:induction false} OldVersionsOutlast(s: State, steps: seq<Step>, n: int)
    requires Inv(s) && n <= s.seqNo && CurrentAt(Run(s, steps), n)
    ensures CurrentAt(s, n) && ChangeAt(s, n) == ChangeAt(Run(s, steps), n) && s.seqNo <= Run(s, steps).seqNo
  {
    if steps != [] {
      var mid := Run(s, steps[..|steps| - 1]);
      RunKeepsInvFrom(s, steps[..|steps| - 1]);
      OldVersionsStay(mid, steps[|steps| - 1], n);
      OldVersionsOutlast(s, steps[..|steps| - 1], n);
    }
  }

  lemma {:induction false} BatchLater(s: State, user: Id, ms: seq<Mutation>, gaps: seq<seq<Step>>, now: int)
    requires Inv(s) && |gaps| == |ms|
    ensures var (t, rs) := PushAmong(s, user, ms, gaps, now);
      && |rs| == |ms| && Inv(t) && s.log <= t.log && s.seqNo <= t.seqNo
      && (forall i :: 0 <= i < |ms| ==> AnswersLater(s, ms[i], rs[i]))
      && forall n :: n <= s.seqNo && CurrentAt(t, n) ==> CurrentAt(s, n) && ChangeAt(s, n) == ChangeAt(t, n)
  {
    if ms != [] {
      var k := |ms| - 1;
      BatchLater(s, user, ms[..k], gaps[..k], now);
      var (before, rs) := PushAmong(s, user, ms[..k], gaps[..k], now);
      var mid := Run(before, gaps[k]);
      RunKeepsInvFrom(before, gaps[k]);
      AnswerLater(s, mid, user, ms[k], now);
      StepKeepsInv(mid, Push(user, ms[k], now));
      PushExtends(mid, user, ms[k], now);
      var t := PushOne(mid, user, ms[k], now).0;
      forall n | n <= s.seqNo && CurrentAt(t, n) ensures CurrentAt(s, n) && ChangeAt(s, n) == ChangeAt(t, n) {
        OldVersionsStay(mid, Push(user, ms[k], now), n);
        OldVersionsOutlast(before, gaps[k], n);
      }
      forall i | 0 <= i < k ensures AnswersLater(s, ms[i], rs[i]) { assert ms[..k][i] == ms[i]; }
    }
  }

  /** An answer about the version's own entry cannot be an acceptance, and what it brings is not older. */
  predicate AnswerFits(c: Store, m: Mutation, r: PushResult, v: Change) {
    && r.entry == m.entry
    && (m.entry == v.entry ==>
          && r.Refused? && (r.code == ERR_CONFLICT ==> r.current.Some?)
          && (r.current.Some? && v.entry in c.waiting ==> c.waiting[v.entry].seqNo <= r.current.value.seqNo))
  }

  lemma AnswerMirrors(c: Store, m: Mutation, r: PushResult, v: Change)
    requires Mirrored(c, v) && AnswerFits(c, m, r, v)
    ensures Mirrored(HandleResult(c, m, r), v)
    ensures HandleResult(c, m, r).waiting == c.waiting && HandleResult(c, m, r).lastSeq == c.lastSeq
  {
    if r.Refused? && r.code == ERR_CONFLICT && r.current.Some? {
      RefusalMirrors(c, r.entry, r.current.value, v);
    } else if r.Accepted? {
      assert OnlyEntry(c, HandleAccepted(c, r.entry, r.newSeq), m.entry);
    }
  }

  lemma RefusalMirrors(c: Store, id: Id, current: Change, v: Change)
    requires Mirrored(c, v) && (id == v.entry && id in c.waiting ==> c.waiting[id].seqNo <= current.seqNo)
    ensures var d := HandlePushConflict(c, id, current);
      Mirrored(d, v) && d.waiting == c.waiting && d.lastSeq == c.lastSeq
  {
    ConflictTouchesOne(c, id, current);
    if id != v.entry {
      ElsewhereMirrored(c, HandlePushConflict(c, id, current), id, v);
    } else if id in c.rows {
      RefusalLeavesSay(c, id, current);
    }
  }

  lemma ConflictTouchesOne(c: Store, id: Id, current: Change)
    ensures var d := HandlePushConflict(c, id, current);
      OnlyEntry(c, d, id) && d.waiting == c.waiting && d.lastSeq == c.lastSeq && d.bad == c.bad
  {
  }

  lemma RefusalLeavesSay(c: Store, id: Id, current: Change)
    requires id in c.rows && (id in c.waiting ==> c.waiting[id].seqNo <= current.seqNo)
    ensures UserHasSay(HandlePushConflict(c, id, current), id)
  {
    if !c.rows[id].deleted {
      var theirs := Decrypt(c.deks, current.group, id, current.ct);
      ConflictLeavesSay(c, id, current, if theirs.Some? then AutoMerge(c.rows[id], theirs.value) else None);
    }
  }

  lemma ConflictLeavesSay(c: Store, id: Id, current: Change, merged: Option<Json>)
    requires id in c.rows && (id in c.waiting ==> c.waiting[id].seqNo <= current.seqNo)
    ensures UserHasSay(ConflictOverEdit(c, id, current, merged), id)
  {
  }

  lemma {:induction false} AnswersMirror(c: Store, ms: seq<Mutation>, rs: seq<PushResult>, v: Change)
    requires Mirrored(c, v) && |ms| == |rs| && forall i :: 0 <= i < |ms| ==> AnswerFits(c, ms[i], rs[i], v)
    ensures Mirrored(HandleResults(c, ms, rs), v)
    ensures HandleResults(c, ms, rs).waiting == c.waiting && HandleResults(c, ms, rs).lastSeq == c.lastSeq
  {
    if ms != [] {
      var k := |ms| - 1;
      forall i | 0 <= i < k ensures AnswerFits(c, ms[..k][i], rs[..k][i], v) {
        assert ms[..k][i] == ms[i] && rs[..k][i] == rs[i];
      }
      AnswersMirror(c, ms[..k], rs[..k], v);
      AnswerMirrors(HandleResults(c, ms[..k], rs[..k]), ms[k], rs[k], v);
    }
  }

  lemma {:induction false} AnswersKeepCursor(c: Store, ms: seq<Mutation>, rs: seq<PushResult>)
    requires |ms| == |rs|
    ensures HandleResults(c, ms, rs).lastSeq == c.lastSeq
  {
    if ms != [] {
      var k := |ms| - 1;
      AnswersKeepCursor(c, ms[..k], rs[..k]);
      AnswerKeepsCursor(HandleResults(c, ms[..k], rs[..k]), ms[k], rs[k]);
    }
  }

  lemma AnswerKeepsCursor(c: Store, m: Mutation, r: PushResult)
    ensures HandleResult(c, m, r).lastSeq == c.lastSeq
  {
  }

  /** A version from before a batch is no longer current once a mutation of its entry was accepted. */
  lemma NotAccepted(s: State, t: State, m: Mutation, r: PushResult, n: int)
    requires Stored(t) && CurrentAt(t, n) && n <= s.seqNo && m.entry == ChangeAt(t, n).entry
    requires AnswersLater(s, m, r) && ResultOk(t.log, m, r)
    ensures r.Refused?
  {
    assert Latest(t.log, n - 1);
  }

  lemma OneFits(c: Store, s: State, m: Mutation, r: PushResult, v: Change)
    requires WaitingGenuine(s.log, c) && AnswersLater(s, m, r) && (m.entry == v.entry ==> r.Refused?)
    ensures AnswerFits(c, m, r, v)
  {
    if m.entry == v.entry && v.entry in c.waiting { assert Committed(s.log, v.entry, c.waiting[v.entry].seqNo); }
  }

  /** The answers fit every version that is still current after the batch. */
  lemma BatchFits(w: World, ms: seq<Mutation>, rs: seq<PushResult>, t: State, n: int)
    requires WaitingGenuine(w.server.log, w.client) && Stored(t) && |ms| == |rs| && n <= w.server.seqNo && CurrentAt(t, n)
    requires forall i :: 0 <= i < |ms| ==> AnswersLater(w.server, ms[i], rs[i]) && ResultOk(t.log, ms[i], rs[i])
    ensures forall i :: 0 <= i < |ms| ==> AnswerFits(w.client, ms[i], rs[i], ChangeAt(t, n))
  {
    var v := ChangeAt(t, n);
    forall i | 0 <= i < |ms| ensures AnswerFits(w.client, ms[i], rs[i], v) {
      if ms[i].entry == v.entry { NotAccepted(w.server, t, ms[i], rs[i], n); }
      OneFits(w.client, w.server, ms[i], rs[i], v);
    }
  }

  lemma PushCarries(w: World, user: Id, ids: seq<Id>, gaps: seq<seq<Step>>, now: int)
    requires Agrees(w) && Listing(ids, w.client.rows) && |gaps| == |Outgoing(w.client, ids)|
    ensures var ms := Outgoing(w.client, ids);
      var (t, rs) := PushAmong(w.server, user, ms, gaps, now);
      |rs| == |ms| && Carries(w.server, w.client, t, HandleResults(w.client, ms, rs))
  {
    var ms := Outgoing(w.client, ids);
    BatchLater(w.server, user, ms, gaps, now);
    PushAmongOk(w.server, user, ms, gaps, now);
    var (t, rs) := PushAmong(w.server, user, ms, gaps, now);
    AnswersKeepCursor(w.client, ms, rs);
    forall n | n <= w.server.seqNo && CurrentAt(t, n) && Mirrored(w.client, ChangeAt(w.server, n))
      ensures Mirrored(HandleResults(w.client, ms, rs), ChangeAt(w.server, n))
    {
      BatchFits(w, ms, rs, t, n);
      AnswersMirror(w.client, ms, rs, ChangeAt(t, n));
    }
  }

  lemma PushFaithful(w: World, groups: set<Id>, user: Id, ids: seq<Id>, gaps: seq<seq<Step>>, now: int)
    requires Agrees(w) && Faithful(w, groups) && Listing(ids, w.client.rows) && |gaps| == |Outgoing(w.client, ids)|
    ensures Faithful(Next(w, PushDirty(user, ids, gaps, now)), groups)
  {
    var ms := Outgoing(w.client, ids);
    var (t, rs) := PushAmong(w.server, user, ms, gaps, now);
    PushCarries(w, user, ids, gaps, now);
    CarriedFaithful(w, groups, t, HandleResults(w.client, ms, rs));
  }

  // ---- what touches only the client ----

  lemma {:induction false} ResealMirrors(c: Store, g: Id, newKV: int, ids: seq<Id>, v: Change)
    requires Mirrored(c, v)
    ensures Mirrored(Reencrypt(c, g, newKV, ids), v)
  {
    if ids != [] && HasKey(c, g, newKV) {
      ResealMirrors(c, g, newKV, ids[..|ids| - 1], v);
      var before := Reencrypt(c, g, newKV, ids[..|ids| - 1]);
      var id := ids[|ids| - 1];
      var after := ReencryptRow(before, g, newKV, id);
      if after != before && id == v.entry { assert UserHasSay(after, id); }
    }
  }

  lemma {:induction false} ResealKeepsCursor(c: Store, g: Id, newKV: int, ids: seq<Id>)
    ensures Reencrypt(c, g, newKV, ids).lastSeq == c.lastSeq
  {
    if ids != [] && HasKey(c, g, newKV) { ResealKeepsCursor(c, g, newKV, ids[..|ids| - 1]); }
  }

  lemma EditMirrors(c: Store, move: Move, v: Change)
    requires Mirrored(c, v) && (move.Edit? || move.Delete? || move.Restore? || move.Resolve?)
    ensures Mirrored(Local(c, move), v)
  {
    var d := Local(c, move);
    if d != c {
      if move.id == v.entry { assert UserHasSay(d, v.entry); } else {
        assert OnlyEntry(c, d, move.id);
        ElsewhereMirrored(c, d, move.id, v);
      }
    }
  }

  lemma LocalMirrors(c: Store, move: Move, v: Change)
    requires Mirrored(c, v) && !move.FlushWaiting?
    ensures Mirrored(Local(c, move), v)
  {
    if move.Edit? || move.Delete? || move.Restore? || move.Resolve? {
      EditMirrors(c, move, v);
    } else if move.Reseal? && Listing(move.ids, c.rows) {
      ResealMirrors(c, move.group, move.newKV, move.ids, v);
    }
  }

  lemma LocalKeepsCursor(c: Store, move: Move)
    requires !move.FlushWaiting?
    ensures Local(c, move).lastSeq == c.lastSeq
  {
    if move.Reseal? { ResealKeepsCursor(c, move.group, move.newKV, move.ids); }
  }

  lemma LocalCarries(s: State, c: Store, move: Move)
    requires !move.FlushWaiting?
    ensures Carries(s, c, s, Local(c, move))
  {
    LocalKeepsCursor(c, move);
    forall n | CurrentAt(s, n) && Mirrored(c, ChangeAt(s, n)) ensures Mirrored(Local(c, move), ChangeAt(s, n)) {
      LocalMirrors(c, move, ChangeAt(s, n));
    }
  }

  // ---- whole runs ----

  lemma NextFaithful(w: World, groups: set<Id>, move: Move)
    requires Agrees(w) && Faithful(w, groups) && Orderly(w, move, groups)
    ensures Faithful(Next(w, move), groups)
  {
    match move
    case Others(step) =>
      OthersCarry(w.server, w.client, step);
      CarriedFaithful(w, groups, Apply(w.server, step), w.client);
    case Fetch(user) => FetchFaithful(w, groups, user);
    case TakeNext => if w.inbox != [] { TakeFaithful(w, groups); }
    case Commit => if w.inbox == [] { CommitFaithful(w, groups); }
    case Receive(ch) => if Genuine(w.server.log, ch) { ReceiveFaithful(w, groups, ch); }
    case PushDirty(user, ids, gaps, now) =>
      if Listing(ids, w.client.rows) && |gaps| == |Outgoing(w.client, ids)| { PushFaithful(w, groups, user, ids, gaps, now); }
    case FlushWaiting(ids) => if Listing(ids, w.client.waiting) { FlushFaithful(w, groups, ids); }
    case _ =>
      LocalCarries(w.server, w.client, move);
      CarriedFaithful(w, groups, w.server, Local(w.client, move));
  }

  /**
    Over every orderly run, rounds interleaved with anything anybody does: each version the server
    still stores in the client's groups at or below the client's cursor is the entry's clean row, or
    waits for its key, or the user has a say in it, or it is a deletion and the row is gone.
   */
  lemma {:induction false} MirrorHolds(moves: seq<Move>, groups: set<Id>)
    requires forall i :: 0 <= i < |moves| ==> Orderly(RunWorld(START, moves[..i]), moves[i], groups)
    ensures var w := RunWorld(START, moves);
      Faithful(w, groups) && forall n :: OwnVersion(w.server, groups, n) && n <= w.client.lastSeq ==>
        Mirrored(w.client, ChangeAt(w.server, n))
  {
    if moves != [] {
      var k := |moves| - 1;
      forall i | 0 <= i < k ensures Orderly(RunWorld(START, moves[..k][..i]), moves[..k][i], groups) {
        assert moves[..k][..i] == moves[..i] && moves[..k][i] == moves[i];
      }
      MirrorHolds(moves[..k], groups);
      RunAgrees(START, moves[..k]);
      NextFaithful(RunWorld(START, moves[..k]), groups, moves[k]);
    }
  }

  // ---- when everything opens ----

  /** Nothing that the move applies fails to open. */
  ghost predicate Opens(w: World, move: Move) {
    match move
    case TakeNext => w.inbox != [] ==> !Unreadable(w.client, w.inbox[0])
    case Receive(ch) => Genuine(w.server.log, ch) ==> !Unreadable(w.client, ch)
    case FlushWaiting(ids) =>
      forall id :: id in w.client.waiting ==> !Unreadable(w.client, AsLive(id, w.client.waiting[id]))
    case _ => true
  }

  lemma OpenedIsNotBad(c: Store, ch: Change)
    requires c.bad == {} && !Unreadable(c, ch)
    ensures ApplyChange(c, ch).bad == {} && ApplyChange(c, ch).deks == c.deks
  {
    KeysKept(c, ch);
  }

  lemma {:induction false} FlushedIsNotBad(c: Store, listed: map<Id, Waiting>, ids: seq<Id>)
    requires c.bad == {} && forall id :: id in ids ==> id in listed
    requires forall id :: id in listed ==> !Unreadable(c, AsLive(id, listed[id]))
    ensures Flush(c, listed, ids).bad == {} && Flush(c, listed, ids).deks == c.deks
  {
    if ids != [] {
      var k := |ids| - 1;
      FlushedIsNotBad(c, listed, ids[..k]);
      if HasKey(c, listed[ids[k]].group, listed[ids[k]].kv) {
        OpenedIsNotBad(Flush(c, listed, ids[..k]), AsLive(ids[k], listed[ids[k]]));
      }
    }
  }

  lemma {:induction false} AnswersAreNotBad(c: Store, ms: seq<Mutation>, rs: seq<PushResult>)
    requires |ms| == |rs|
    ensures HandleResults(c, ms, rs).bad == c.bad
  {
    if ms != [] {
      var k := |ms| - 1;
      AnswersAreNotBad(c, ms[..k], rs[..k]);
      AnswerIsNotBad(HandleResults(c, ms[..k], rs[..k]), ms[k], rs[k]);
    }
  }

  lemma AnswerIsNotBad(c: Store, m: Mutation, r: PushResult)
    ensures HandleResult(c, m, r).bad == c.bad
  {
    if r.Refused? && r.current.Some? { ConflictTouchesOne(c, r.entry, r.current.value); }
  }

  lemma {:induction false} ResealIsNotBad(c: Store, g: Id, newKV: int, ids: seq<Id>)
    ensures Reencrypt(c, g, newKV, ids).bad == c.bad
  {
    if ids != [] && HasKey(c, g, newKV) { ResealIsNotBad(c, g, newKV, ids[..|ids| - 1]); }
  }

  lemma NextIsNotBad(w: World, move: Move)
    requires w.client.bad == {} && Opens(w, move)
    ensures Next(w, move).client.bad == {}
  {
    match move
    case TakeNext => if w.inbox != [] { OpenedIsNotBad(w.client, w.inbox[0]); }
    case Receive(ch) => if Genuine(w.server.log, ch) { OpenedIsNotBad(w.client, ch); }
    case FlushWaiting(ids) =>
      if Listing(ids, w.client.waiting) { FlushedIsNotBad(w.client, w.client.waiting, ids); }
    case Reseal(g, newKV, ids) => ResealIsNotBad(w.client, g, newKV, ids);
    case PushDirty(user, ids, gaps, now) =>
      if Listing(ids, w.client.rows) && |gaps| == |Outgoing(w.client, ids)| {
        var ms := Outgoing(w.client, ids);
        var (server, rs) := PushAmong(w.server, user, ms, gaps, now);
        if |rs| == |ms| { AnswersAreNotBad(w.client, ms, rs); }
      }
    case _ =>
  }

  lemma {:induction false} NothingBad(moves: seq<Move>)
    requires forall i :: 0 <= i < |moves| ==> Opens(RunWorld(START, moves[..i]), moves[i])
    ensures RunWorld(START, moves).client.bad == {}
  {
    if moves != [] {
      var k := |moves| - 1;
      forall i | 0 <= i < k ensures Opens(RunWorld(START, moves[..k][..i]), moves[..k][i]) {
        assert moves[..k][..i] == moves[..i] && moves[..k][i] == moves[i];
      }
      NothingBad(moves[..k]);
      NextIsNotBad(RunWorld(START, moves[..k]), moves[k]);
    }
  }

  /**
    Over every orderly run in which all that is applied opens: of each live version of the client's
    groups at or below the cursor the client shows exactly the text sealed in it, unless the version
    still waits for its key or the user has a say in the entry.
   */
  lemma TextsShown(moves: seq<Move>, groups: set<Id>, n: int)
    requires forall i :: 0 <= i < |moves| ==>
      Orderly(RunWorld(START, moves[..i]), moves[i], groups) && Opens(RunWorld(START, moves[..i]), moves[i])
    requires var w := RunWorld(START, moves); OwnVersion(w.server, groups, n) && n <= w.client.lastSeq
    ensures var w, ch := RunWorld(START, moves), ChangeAt(RunWorld(START, moves).server, n);
      !ch.deleted ==>
        Waits(w.client, ch) || UserHasSay(w.client, ch.entry) ||
        (ch.entry in w.client.rows && ch.ct.Sealed? && w.client.rows[ch.entry].cache == Some(ch.ct.text))
  {
    MirrorHolds(moves, groups);
    NothingBad(moves);
  }
}
