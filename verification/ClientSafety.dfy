/** What the client never loses: unpushed edits, deletions, and the meaning of re-encrypted entries. */
module ClientSafety {
  import opened Base
  import opened Json
  import opened Merge
  import opened Wire
  import opened Client
  import opened Agreement

  // ---- unpushed edits ----

  /** A live row waiting to be pushed, with its text at hand. */
  predicate UnpushedEdit(c: Store, id: Id) {
    id in c.rows && c.rows[id].dirty && !c.rows[id].deleted && c.rows[id].cache.Some?
  }

  /** A merge of the edit with the server's text, without conflict and ready to be pushed. */
  predicate MergedWith(was: Row, now: Row, theirs: Json) {
    var r := MergeJSON(was.base, was.cache, Some(theirs), []);
    r.Merged? && !r.HasConflict() && now.cache == Some(r.doc) && now.base == was.base && now.dirty && !now.conflict
  }

  /**
    The edit is still the row's cached text, waiting for a push or a decision, or it is the
    conflict-free merge with `theirs`, the server's text that came, if it opened.
   */
  predicate EditKept(c: Store, d: Store, id: Id, theirs: Option<Json>)
    requires id in c.rows
  {
    && id in d.rows
    && d.rows[id].deleted == c.rows[id].deleted
    && ((d.rows[id].cache == c.rows[id].cache && d.rows[id].base == c.rows[id].base
         && (d.rows[id].dirty || d.rows[id].conflict))
        || (theirs.Some? && MergedWith(c.rows[id], d.rows[id], theirs.value)))
  }

  /** A live change whose key is at hand but that does not open. */
  predicate Unreadable(c: Store, ch: Change) {
    !ch.deleted && HasKey(c, ch.group, ch.kv) && Decrypt(c.deks, ch.group, ch.entry, ch.ct).None?
  }

  /** An incoming change destroys an unpushed edit exactly when it does not open. */
  lemma EditSurvivesChange(c: Store, ch: Change)
    requires UnpushedEdit(c, ch.entry)
    ensures EditKept(c, ApplyChange(c, ch), ch.entry, Decrypt(c.deks, ch.group, ch.entry, ch.ct)) <==> !Unreadable(c, ch)
  {
    if ch.deleted {
      assert ApplyChange(c, ch) == ApplyTombstone(c, ch);
    }
  }

  /** The text a refused push brings back, if it brings one that opens. */
  function AnswerText(c: Store, code: int, current: Option<Change>): Option<Json> {
    if code == ERR_CONFLICT && current.Some?
    then Decrypt(c.deks, current.value.group, current.value.entry, current.value.ct) else None
  }

  /** A refused push never destroys the edit it carried. */
  lemma EditSurvivesPushConflict(c: Store, m: Mutation, code: int, current: Option<Change>)
    requires UnpushedEdit(c, m.entry) && (current.Some? ==> current.value.entry == m.entry)
    ensures EditKept(c, HandleResult(c, m, Refused(m.entry, code, current)), m.entry, AnswerText(c, code, current))
  {
  }

  // ---- conflict rows ----

  /** A replayed change leaves everything as it was, unless it is a live change that lacks its key or does not open. */
  lemma ReplayChangesNothing(c: Store, ch: Change)
    requires Replayed(c, ch)
    ensures ch.deleted || (HasKey(c, ch.group, ch.kv) && !Unreadable(c, ch)) ==> ApplyChange(c, ch) == c
    ensures ApplyChange(c, ch).rows == c.rows <==> !Unreadable(c, ch)
  {
    if Unreadable(c, ch) { assert !ApplyChange(c, ch).rows[ch.entry].conflict; }
  }

  /**
    The user's side of an unresolved conflict survives a change exactly when the change is a replay
    that opens or deletes, waits for its key, or happens to carry the same text.
   */
  lemma ConflictRowFate(c: Store, ch: Change)
    requires ch.entry in c.rows
    requires var row := c.rows[ch.entry]; row.conflict && !row.dirty && !row.deleted && row.cache.Some?
    ensures var d, text := ApplyChange(c, ch), Decrypt(c.deks, ch.group, ch.entry, ch.ct);
      (ch.entry in d.rows && d.rows[ch.entry].cache == c.rows[ch.entry].cache) <==>
      if ch.deleted then Replayed(c, ch)
      else !HasKey(c, ch.group, ch.kv) || (text.Some? && (Replayed(c, ch) || text == c.rows[ch.entry].cache))
  {
  }

  // ---- deletions ----

  /** A deletion waiting to be pushed. */
  predicate UnpushedDeletion(c: Store, id: Id) {
    id in c.rows && var row := c.rows[id];
    row.deleted && row.dirty && row.ct == EMPTY && row.cache == None && row.base == None
  }

  lemma DeleteEntryWaits(c: Store, id: Id)
    requires id in c.rows
    ensures UnpushedDeletion(DeleteEntry(c, id), id)
    ensures Get(DeleteEntry(c, id).recycle, id) == Some(c.rows[id].ct)
  {
  }

  /** One change leaves the deletion standing unless it is itself a new tombstone or does not open. */
  lemma DeletionFate(c: Store, ch: Change)
    requires UnpushedDeletion(c, ch.entry)
    ensures UnpushedDeletion(ApplyChange(c, ch), ch.entry) <==>
            !Unreadable(c, ch) && (ch.deleted ==> Replayed(c, ch))
  {
  }

  datatype Event =
    | Incoming(ch: Change)
    | Flushing(ids: seq<Id>)
    | Answer(m: Mutation, r: PushResult)
    | Reencrypting(group: Id, newKV: int, ids: seq<Id>)
    | KeyCame(group: Id, kv: int, key: Key)
    | Elsewhere(move: Move)

  function Happen(c: Store, ev: Event): Store {
    match ev
    case Incoming(ch) => ApplyChange(c, ch)
    case Flushing(ids) => if Listing(ids, c.waiting) then Flush(c, c.waiting, ids) else c
    case Answer(m, r) => HandleResult(c, m, r)
    case Reencrypting(g, newKV, ids) => if Listing(ids, c.rows) then Reencrypt(c, g, newKV, ids) else c
    case KeyCame(g, kv, key) => SetDEK(c, g, kv, key)
    case Elsewhere(move) => Local(c, move)
  }

  /**
    Changes of the entry are live and open once their key is there; its push has not succeeded; the
    user leaves it alone.
   */
  predicate Harmless(c: Store, ev: Event, id: Id) {
    match ev
    case Incoming(ch) => ch.entry == id ==> !ch.deleted && !Unreadable(c, ch)
    case Flushing(ids) => id in c.waiting ==> !Unreadable(c, AsLive(id, c.waiting[id]))
    case Answer(m, r) => r.Accepted? ==> r.entry != id
    case Reencrypting(_, _, _) => true
    case KeyCame(_, _, _) => true
    case Elsewhere(move) => (move.Edit? || move.Delete? || move.Restore? || move.Resolve?) && move.id != id
  }

  function Unfold(c: Store, evs: seq<Event>): Store {
    if evs == [] then c else Happen(Unfold(c, evs[..|evs| - 1]), evs[|evs| - 1])
  }

  lemma {:induction false} FlushKeepsDeletion(c: Store, listed: map<Id, Waiting>, ids: seq<Id>, id: Id)
    requires UnpushedDeletion(c, id) && Listing(ids, listed)
    requires id in listed ==> !Unreadable(c, AsLive(id, listed[id]))
    ensures UnpushedDeletion(Flush(c, listed, ids), id) && Flush(c, listed, ids).deks == c.deks
  {
    if ids != [] {
      var n := |ids| - 1;
      FlushKeepsDeletion(c, listed, ids[..n], id);
      var before := Flush(c, listed, ids[..n]);
      if HasKey(before, listed[ids[n]].group, listed[ids[n]].kv) {
        KeysKept(before, AsLive(ids[n], listed[ids[n]]));
        if ids[n] == id {
          DeletionFate(before, AsLive(id, listed[id]));
        } else {
          ApplyTouchesOne(before, AsLive(ids[n], listed[ids[n]]));
          assert Get(Flush(c, listed, ids).rows, id) == Get(before.rows, id);
        }
      }
    }
  }

  lemma KeysKept(c: Store, ch: Change)
    ensures ApplyChange(c, ch).deks == c.deks
  {
    if ch.deleted { assert ApplyTombstone(c, ch).deks == c.deks; }
  }

  lemma {:induction false} ReencryptKeepsDeletion(c: Store, g: Id, newKV: int, ids: seq<Id>, id: Id)
    requires UnpushedDeletion(c, id) && forall x :: x in ids ==> x in c.rows
    ensures UnpushedDeletion(Reencrypt(c, g, newKV, ids), id)
  {
    if ids != [] && HasKey(c, g, newKV) {
      ReencryptKeepsDeletion(c, g, newKV, ids[..|ids| - 1], id);
    }
  }

  lemma AnswerKeepsDeletion(c: Store, m: Mutation, r: PushResult, id: Id)
    requires UnpushedDeletion(c, id) && (r.Accepted? ==> r.entry != id)
    ensures UnpushedDeletion(HandleResult(c, m, r), id)
  {
  }

  lemma EventKeepsDeletion(c: Store, ev: Event, id: Id)
    requires UnpushedDeletion(c, id) && Harmless(c, ev, id)
    ensures UnpushedDeletion(Happen(c, ev), id)
  {
    match ev
    case Incoming(ch) =>
      if ch.entry == id { DeletionFate(c, ch); } else {
        ApplyTouchesOne(c, ch);
        assert Get(ApplyChange(c, ch).rows, id) == Get(c.rows, id);
      }
    case Flushing(ids) =>
      if Listing(ids, c.waiting) { FlushKeepsDeletion(c, c.waiting, ids, id); }
    case Answer(m, r) => AnswerKeepsDeletion(c, m, r, id);
    case Reencrypting(g, newKV, ids) =>
      if Listing(ids, c.rows) { ReencryptKeepsDeletion(c, g, newKV, ids, id); }
    case KeyCame(_, _, _) =>
    case Elsewhere(move) =>
  }

  /** A deletion outlives every run of harmless events: it stays deleted, dirty and empty. */
  lemma {:induction false} DeletionStays(c: Store, evs: seq<Event>, id: Id)
    requires UnpushedDeletion(c, id)
    requires forall i :: 0 <= i < |evs| ==> Harmless(Unfold(c, evs[..i]), evs[i], id)
    ensures UnpushedDeletion(Unfold(c, evs), id)
  {
    if evs != [] {
      var n := |evs| - 1;
      forall i | 0 <= i < n ensures Harmless(Unfold(c, evs[..n][..i]), evs[..n][i], id) {
        assert evs[..n][..i] == evs[..i];
      }
      DeletionStays(c, evs[..n], id);
      EventKeepsDeletion(Unfold(c, evs[..n]), evs[n], id);
    }
  }

  /** Its own successful push removes the row. */
  lemma DeletionEndsWithItsPush(c: Store, m: Mutation, newSeq: int)
    requires UnpushedDeletion(c, m.entry)
    ensures m.entry !in HandleResult(c, m, Accepted(m.entry, newSeq)).rows
  {
  }

  // ---- held groups ----

  lemma {:induction false} FlushKeepsHeld(c: Store, listed: map<Id, Waiting>, ids: seq<Id>)
    requires forall id :: id in ids ==> id in listed
    ensures Flush(c, listed, ids).held == c.held
  {
    if ids != [] { FlushKeepsHeld(c, listed, ids[..|ids| - 1]); }
  }

  lemma {:induction false} ReencryptKeepsHeld(c: Store, g: Id, newKV: int, ids: seq<Id>)
    requires forall id :: id in ids ==> id in c.rows
    ensures Reencrypt(c, g, newKV, ids).held == c.held
  {
    if ids != [] && HasKey(c, g, newKV) { ReencryptKeepsHeld(c, g, newKV, ids[..|ids| - 1]); }
  }

  /** Once the server has called a mutation's key version stale, its group stays held until a rekey releases it. */
  lemma HeldUntilRekey(c: Store, m: Mutation, id: Id, evs: seq<Event>)
    requires forall i :: 0 <= i < |evs| && evs[i].Elsewhere? ==> !evs[i].move.Hold?
    ensures var d := Unfold(HandleResult(c, m, Refused(id, ERR_KEY_VERSION_STALE, None)), evs);
      m.group in d.held && forall ids, i :: Listing(ids, d.rows) && 0 <= i < |Outgoing(d, ids)| ==>
        Outgoing(d, ids)[i].group != m.group
  {
    var start := HandleResult(c, m, Refused(id, ERR_KEY_VERSION_STALE, None));
    HeldStays(start, evs, m.group);
    forall ids, i | Listing(ids, Unfold(start, evs).rows) && 0 <= i < |Outgoing(Unfold(start, evs), ids)|
      ensures Outgoing(Unfold(start, evs), ids)[i].group != m.group
    {
      HeldSendsNothing(Unfold(start, evs), ids, m.group);
    }
  }

  lemma {:induction false} HeldStays(c: Store, evs: seq<Event>, g: Id)
    requires g in c.held && forall i :: 0 <= i < |evs| && evs[i].Elsewhere? ==> !evs[i].move.Hold?
    ensures g in Unfold(c, evs).held
  {
    if evs != [] {
      var n := |evs| - 1;
      forall i | 0 <= i < n && evs[..n][i].Elsewhere? ensures !evs[..n][i].move.Hold? { assert evs[..n][i] == evs[i]; }
      HeldStays(c, evs[..n], g);
      EventKeepsHeld(Unfold(c, evs[..n]), evs[n], g);
    }
  }

  lemma EventKeepsHeld(c: Store, ev: Event, g: Id)
    requires g in c.held && (ev.Elsewhere? ==> !ev.move.Hold?)
    ensures g in Happen(c, ev).held
  {
    match ev
    case Flushing(ids) => if Listing(ids, c.waiting) { FlushKeepsHeld(c, c.waiting, ids); }
    case Reencrypting(h, kv, ids) => if Listing(ids, c.rows) { ReencryptKeepsHeld(c, h, kv, ids); }
    case Elsewhere(move) =>
      if move.FlushWaiting? && Listing(move.ids, c.waiting) { FlushKeepsHeld(c, c.waiting, move.ids); }
      if move.Reseal? && Listing(move.ids, c.rows) { ReencryptKeepsHeld(c, move.group, move.newKV, move.ids); }
    case _ =>
  }

  lemma {:induction false} HeldSendsNothing(c: Store, ids: seq<Id>, g: Id)
    requires g in c.held && Listing(ids, c.rows)
    ensures forall i :: 0 <= i < |Outgoing(c, ids)| ==> Outgoing(c, ids)[i].group != g
  {
    if ids != [] { HeldSendsNothing(c, ids[..|ids| - 1], g); }
  }

  // ---- re-encryption ----

  /** Rows the pass rewrites: of the group, not yet at the new version, and open with a key at hand. */
  predicate Rewritten(c: Store, g: Id, newKV: int, id: Id)
    requires id in c.rows
  {
    c.rows[id].group == g && c.rows[id].kv != newKV && Decrypt(c.deks, g, id, c.rows[id].ct).Some?
  }

  lemma {:induction false} ReencryptRows(c: Store, g: Id, newKV: int, ids: seq<Id>, id: Id)
    requires HasKey(c, g, newKV) && Listing(ids, c.rows) && id in c.rows
    ensures var r := Reencrypt(c, g, newKV, ids);
      if id in ids && Rewritten(c, g, newKV, id) then
        var text := Decrypt(c.deks, g, id, c.rows[id].ct);
        && Decrypt(r.deks, g, id, r.rows[id].ct) == text && r.rows[id].ct.kv == newKV
        && r.rows[id] == c.rows[id].(ct := r.rows[id].ct, kv := newKV, dirty := true, cache := text)
      else r.rows[id] == c.rows[id]
  {
    if ids != [] {
      var n := |ids| - 1;
      var init := ids[..n];
      ReencryptRows(c, g, newKV, init, id);
      assert id in ids <==> id in init || id == ids[n];
      if id == ids[n] { assert id !in init; }
    }
  }

  /**
    Over a listing of all rows: every row the pass can open ends at the new version with the text it
    had, dirty, at the Seq it had; a row without conflict also keeps its cached text; every other row
    is left alone.
   */
  lemma ReencryptPreservesMeaning(c: Store, g: Id, newKV: int, ids: seq<Id>, id: Id)
    requires HasKey(c, g, newKV) && Listing(ids, c.rows) && c.rows.Keys == (set x | x in ids)
    requires id in c.rows && CacheOk(id, c.rows[id])
    ensures var was, now, r := c.rows[id], Reencrypt(c, g, newKV, ids).rows[id], Reencrypt(c, g, newKV, ids);
      if Rewritten(c, g, newKV, id) then
        && Decrypt(r.deks, g, id, now.ct) == Decrypt(c.deks, g, id, was.ct) && now.ct.kv == now.kv == newKV
        && now.dirty && now.seqNo == was.seqNo && now.base == was.base && now.conflict == was.conflict
        && (!was.conflict && was.cache.Some? ==> now.cache == was.cache)
      else now == was
  {
    ReencryptRows(c, g, newKV, ids, id);
    assert id in ids;
  }

  /** In a conflict row the pass puts the server's text in place of the user's, unless they agree. */
  lemma ReencryptOverwritesConflicts(c: Store, g: Id, newKV: int, ids: seq<Id>, id: Id)
    requires HasKey(c, g, newKV) && Listing(ids, c.rows) && id in ids
    requires c.rows[id].conflict && Rewritten(c, g, newKV, id)
    ensures Reencrypt(c, g, newKV, ids).rows[id].cache == c.rows[id].cache <==>
            c.rows[id].cache == Decrypt(c.deks, g, id, c.rows[id].ct)
  {
    ReencryptRows(c, g, newKV, ids, id);
  }
}
