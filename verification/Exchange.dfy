/**
  From one client through the server to another: what a client writes is what the server takes
  next, and what the server has is what the next client shows.
 */
module Exchange {
  import opened Base
  import opened Json
  import opened Merge
  import opened MergeLaws
  import opened Wire
  import opened Server
  import opened Authority
  import opened Client
  import opened ClientSafety

  // ---- showing ----

  /** A live change that opens and meets neither a replay nor anything of the user's is shown as it is. */
  lemma OpenedChangeIsShown(c: Store, ch: Change)
    requires !ch.deleted && HasKey(c, ch.group, ch.kv) && Decrypt(c.deks, ch.group, ch.entry, ch.ct).Some?
    requires !Replayed(c, ch) && (ch.entry in c.rows ==> !c.rows[ch.entry].dirty && !c.rows[ch.entry].deleted)
    ensures var d := ApplyChange(c, ch);
      && Get(d.rows, ch.entry) == Some(Row(ch.group, ch.seqNo, ch.kv, ch.ct, Decrypt(c.deks, ch.group, ch.entry, ch.ct),
                                           None, false, false, false))
      && ch.entry !in d.waiting && ch.seqNo !in d.bad
  {
  }

  /** A change that comes before its key waits, and is shown once the key has come, as if it had come after. */
  lemma WaitsUntilTheKey(c: Store, ch: Change, key: Key)
    requires !ch.deleted && !HasKey(c, ch.group, ch.kv) && !Replayed(c, ch)
    requires ch.ct.Sealed? && ch.ct.dek == key && ch.ct.kv == ch.kv && ch.ct.group == ch.group && ch.ct.entry == ch.entry
    requires ch.entry in c.rows ==> !c.rows[ch.entry].dirty && !c.rows[ch.entry].deleted
    ensures var d := ApplyChange(c, ch);
      && d.rows == c.rows && ch.entry in d.waiting
      && var e := SetDEK(d, ch.group, ch.kv, key);
         var shown := Flush(e, e.waiting, [ch.entry]);
         && Get(shown.rows, ch.entry) == Get(ApplyChange(SetDEK(c, ch.group, ch.kv, key), ch).rows, ch.entry)
         && ch.entry in shown.rows && shown.rows[ch.entry].cache == Some(ch.ct.text) && ch.entry !in shown.waiting
  {
    var e := SetDEK(ApplyChange(c, ch), ch.group, ch.kv, key);
    assert AsLive(ch.entry, e.waiting[ch.entry]) == ch;
    assert [ch.entry][..0] == [];
    OpenedChangeIsShown(e, ch);
    OpenedChangeIsShown(SetDEK(c, ch.group, ch.kv, key), ch);
  }

  /** A deletion that arrives takes the row away, and keeps what it held for a restore, unless the user has changes. */
  lemma DeletionIsShown(c: Store, ch: Change)
    requires ch.deleted && !Replayed(c, ch)
    ensures var d := ApplyChange(c, ch);
      && ch.entry !in d.waiting
      && (ch.entry in c.rows && !c.rows[ch.entry].dirty ==>
            ch.entry !in d.rows && Get(d.recycle, ch.entry) == Some(c.rows[ch.entry].ct))
      && (ch.entry in c.rows && c.rows[ch.entry].dirty ==>
            ch.entry in d.rows && d.rows[ch.entry] ==
              c.rows[ch.entry].(conflict := true, dirty := false, seqNo := ch.seqNo, ct := ch.ct))
  {
  }

  /** A local tombstone stands against a live version that opens: it stays as it is and waits to be pushed (again). */
  lemma TombstoneStands(c: Store, ch: Change)
    requires !ch.deleted && HasKey(c, ch.group, ch.kv) && Decrypt(c.deks, ch.group, ch.entry, ch.ct).Some?
    requires !Replayed(c, ch) && ch.entry in c.rows && c.rows[ch.entry].deleted
    ensures ApplyChange(c, ch) == c.(rows := c.rows[ch.entry := c.rows[ch.entry].(dirty := true)])
  {
  }

  /** A conflict answer without the server's version, which this server never gives, marks the row and keeps all it holds. */
  lemma BareConflictMarks(c: Store, m: Mutation)
    requires m.entry in c.rows
    ensures HandleResult(c, m, Refused(m.entry, ERR_CONFLICT, None)) ==
            c.(rows := c.rows[m.entry := c.rows[m.entry].(conflict := true)])
  {
  }

  /** Other refusals leave the tables alone; a stale version holds the group. */
  lemma OtherRefusalsKeepRows(c: Store, m: Mutation, code: int, current: Option<Change>)
    requires code != ERR_CONFLICT
    ensures HandleResult(c, m, Refused(m.entry, code, current)) ==
            if code == ERR_KEY_VERSION_STALE then c.(held := c.held + {m.group}) else c
  {
  }

  // ---- writing ----

  /** The server takes the client's row as it is: accepted if and only if the author may write, it fits and the version is current. */
  ghost predicate TakenNext(s: State, user: Id, id: Id, row: Row, now: int) {
    var m := AsMutation(id, row);
    && (PushOne(s, user, m, now).1.Accepted? <==>
          MayWrite(s, user, row.group) && WireSize(row.ct) <= MAX_CIPHERTEXT && s.groups[row.group].kv == row.kv)
    && (PushOne(s, user, m, now).1.Accepted? ==>
          var t := PushOne(s, user, m, now).0;
          id in t.entries && t.entries[id].ct == row.ct && t.entries[id].kv == row.kv && t.entries[id].deleted == row.deleted)
  }

  /** The row rests on the version the server stores. */
  lemma CurrentRowIsTaken(s: State, user: Id, id: Id, row: Row, now: int)
    requires UpToDate(s, id, row.seqNo)
    ensures TakenNext(s, user, id, row, now)
  {
    AcceptedIff(s, user, AsMutation(id, row), now);
    if PushOne(s, user, AsMutation(id, row), now).1.Accepted? { AcceptedIsStored(s, user, AsMutation(id, row), now); }
  }

  /** The row is to be pushed and holds this text, sealed afresh for its entry under its own version, and readable. */
  predicate Carries(c: Store, id: Id, text: Json) {
    && id in c.rows && var row := c.rows[id];
    && row.dirty && !row.deleted && !row.conflict && row.cache == Some(text)
    && HasKey(c, row.group, row.kv) && row.ct.Sealed? && row.ct.kv == row.kv && row.ct.nonce < c.nonce
    && Decrypt(c.deks, row.group, id, row.ct) == Some(text)
  }

  /** The version an edit is sealed under: the one last noted for the group, or 1. */
  function NotedVersion(c: Store, g: Id): int {
    if g in c.states && c.states[g].kv > 0 then c.states[g].kv else 1
  }

  /** An edit carries its text, under the version noted for the group, at the Seq the row had. */
  lemma EditCarries(c: Store, g: Id, id: Id, text: Json)
    requires HasKey(c, g, NotedVersion(c, g))
    ensures var d := PutEntry(c, g, id, text);
      && Carries(d, id, text) && d.rows[id].group == g && d.rows[id].kv == NotedVersion(c, g)
      && d.rows[id].seqNo == if id in c.rows then c.rows[id].seqNo else 0
  {
  }

  /**
    A push refused because of a newer version: what the client makes of it is what the server takes
    next.  A merge carries the merged text, a deletion stays one, a conflict waits for the user.
   */
  lemma RefusedPushIsTakenNext(s: State, user: Id, c: Store, id: Id, now: int)
    requires id in s.entries && id in c.rows
    ensures var current := AsChange(id, s.entries[id]);
      var d := HandlePushConflict(c, id, current);
      && id in d.rows && d.rows[id].group == current.group && d.rows[id].kv == current.kv && UpToDate(s, id, d.rows[id].seqNo)
      && TakenNext(s, user, id, d.rows[id], now)
      && (c.rows[id].deleted ==> d.rows[id].deleted && d.rows[id].dirty && d.rows[id].ct == EMPTY)
      && (!c.rows[id].deleted ==> !d.rows[id].deleted && (d.rows[id].dirty <==> !d.rows[id].conflict))
      && (!c.rows[id].deleted && d.rows[id].dirty ==> d.rows[id].cache.Some? && Carries(d, id, d.rows[id].cache.value))
      && (d.rows[id].conflict ==> d.rows[id].cache == c.rows[id].cache && d.rows[id].ct == current.ct)
  {
    var current := AsChange(id, s.entries[id]);
    RefusalRow(c, id, current);
    CurrentRowIsTaken(s, user, id, HandlePushConflict(c, id, current).rows[id], now);
  }

  lemma RefusalRow(c: Store, id: Id, current: Change)
    requires id in c.rows && current.entry == id
    ensures var d := HandlePushConflict(c, id, current);
      && id in d.rows && d.rows[id].group == current.group && d.rows[id].kv == current.kv && d.rows[id].seqNo == current.seqNo
      && (c.rows[id].deleted ==> d.rows[id].deleted && d.rows[id].dirty && d.rows[id].ct == EMPTY)
      && (!c.rows[id].deleted ==> !d.rows[id].deleted && (d.rows[id].dirty <==> !d.rows[id].conflict))
      && (!c.rows[id].deleted && d.rows[id].dirty ==> d.rows[id].cache.Some? && Carries(d, id, d.rows[id].cache.value))
      && (d.rows[id].conflict ==> d.rows[id].cache == c.rows[id].cache && d.rows[id].ct == current.ct)
  {
    if !c.rows[id].deleted {
      var theirs := Decrypt(c.deks, current.group, id, current.ct);
      OverEditRow(c, id, current, if theirs.Some? then AutoMerge(c.rows[id], theirs.value) else None);
    }
  }

  lemma OverEditRow(c: Store, id: Id, current: Change, merged: Option<Json>)
    requires id in c.rows
    ensures var d := ConflictOverEdit(c, id, current, merged);
      && id in d.rows && d.rows[id].group == current.group && d.rows[id].kv == current.kv && d.rows[id].seqNo == current.seqNo
      && !d.rows[id].deleted && (d.rows[id].dirty <==> !d.rows[id].conflict)
      && (d.rows[id].dirty ==> merged.Some? && Carries(d, id, merged.value))
      && (d.rows[id].conflict ==> d.rows[id].cache == c.rows[id].cache && d.rows[id].ct == current.ct)
  {
  }

  /** A pulled version that meets an unpushed edit: again, what the client makes of it is what the server takes next. */
  lemma PulledOverEditIsTakenNext(s: State, user: Id, c: Store, id: Id, now: int)
    requires id in s.entries && !s.entries[id].deleted && UnpushedEdit(c, id)
    requires var ch := AsChange(id, s.entries[id]);
      !Replayed(c, ch) && HasKey(c, ch.group, ch.kv) && Decrypt(c.deks, ch.group, id, ch.ct).Some?
    ensures var ch := AsChange(id, s.entries[id]);
      var d := ApplyChange(c, ch);
      && id in d.rows && d.rows[id].group == ch.group && d.rows[id].kv == ch.kv && UpToDate(s, id, d.rows[id].seqNo)
      && TakenNext(s, user, id, d.rows[id], now) && id !in d.waiting
      && (d.rows[id].dirty <==> !d.rows[id].conflict)
      && (d.rows[id].dirty ==> d.rows[id].cache.Some? && Carries(d, id, d.rows[id].cache.value))
      && (d.rows[id].conflict ==> d.rows[id].cache == c.rows[id].cache && d.rows[id].ct == ch.ct && ch.seqNo !in d.bad)
  {
    var ch := AsChange(id, s.entries[id]);
    var text := Decrypt(c.deks, ch.group, id, ch.ct).value;
    PulledRow(c, ch, AutoMerge(c.rows[id], text));
    CurrentRowIsTaken(s, user, id, ApplyChange(c, ch).rows[id], now);
  }

  lemma PulledRow(c: Store, ch: Change, merged: Option<Json>)
    requires ch.entry in c.rows && HasKey(c, ch.group, ch.kv)
    ensures var d, id := ApplyOverEdit(c, ch, c.rows[ch.entry], merged), ch.entry;
      && id in d.rows && d.rows[id].group == ch.group && d.rows[id].kv == ch.kv && d.rows[id].seqNo == ch.seqNo
      && id !in d.waiting && (d.rows[id].dirty <==> !d.rows[id].conflict)
      && (d.rows[id].dirty ==> merged.Some? && Carries(d, id, merged.value))
      && (d.rows[id].conflict ==> d.rows[id].cache == c.rows[id].cache && d.rows[id].ct == ch.ct && ch.seqNo !in d.bad)
  {
  }

  /** A resolved conflict carries the chosen text at the conflicting version's Seq, so the server takes it next. */
  lemma ResolutionIsTakenNext(s: State, user: Id, c: Store, id: Id, choice: Choice, now: int)
    requires id in c.rows && c.rows[id].conflict && UpToDate(s, id, c.rows[id].seqNo)
    requires Chosen(c, id, choice).Some? && HasKey(c, c.rows[id].group, c.rows[id].kv)
    ensures var d, text := ResolveConflict(c, id, choice), Chosen(c, id, choice).value;
      && Carries(d, id, text) && d.rows[id].kv == c.rows[id].kv && d.rows[id].group == c.rows[id].group
      && d.rows[id].seqNo == c.rows[id].seqNo && TakenNext(s, user, id, d.rows[id], now)
      && match choice
         case TakeOurs => c.rows[id].cache == Some(text)
         case TakeTheirs => Decrypt(c.deks, c.rows[id].group, id, c.rows[id].ct) == Some(text)
         case Manual(given) => given == text
  {
    CurrentRowIsTaken(s, user, id, ResolveConflict(c, id, choice).rows[id], now);
  }

  /** Nothing else is resolved: without a conflict, a text or the key, everything stays. */
  lemma NothingToResolve(c: Store, id: Id, choice: Choice)
    requires !(id in c.rows && c.rows[id].conflict && HasKey(c, c.rows[id].group, c.rows[id].kv) &&
               (choice.TakeOurs? ==> c.rows[id].cache.Some?) &&
               (choice.TakeTheirs? ==> Decrypt(c.deks, c.rows[id].group, id, c.rows[id].ct).Some?))
    ensures ResolveConflict(c, id, choice) == c
  {
  }

  // ---- there and back ----

  /** Only a local tombstone with a recycled ciphertext that opens is restored. */
  lemma RestoredIff(c: Store, id: Id)
    ensures RestoreEntry(c, id) != c <==>
      && id in c.recycle && id in c.rows && c.rows[id].deleted && c.rows[id].group != ""
      && Decrypt(c.deks, c.rows[id].group, id, c.recycle[id]).Some?
  {
    if Restorable(c, id).Some? { assert id !in RestoreEntry(c, id).recycle; }
  }

  /** Restoring undoes deleting: the row is back with its ciphertext, text, version and Seq, waiting to be pushed. */
  lemma RestoreUndoesDelete(c: Store, id: Id)
    requires id in c.rows && c.rows[id].group != ""
    ensures var d, text := DeleteEntry(c, id), Decrypt(c.deks, c.rows[id].group, id, c.rows[id].ct);
      && (text.None? ==> RestoreEntry(d, id) == d)
      && (text.Some? ==>
            var e, row := RestoreEntry(d, id), c.rows[id];
            && Get(e.rows, id) == Some(Row(row.group, row.seqNo, row.kv, row.ct, text, None, true, false, false))
            && id !in e.recycle && e.deks == c.deks && e.waiting == c.waiting
            && forall x :: x != id ==> Get(e.rows, x) == Get(c.rows, x) && Get(e.recycle, x) == Get(c.recycle, x))
  {
  }

  /** Once accepted the row is clean at the new Seq with its text, and the next edit starts from that text. */
  lemma NextEditStartsFromAccepted(c: Store, g: Id, id: Id, text: Json, next: Json, newSeq: int)
    requires HasKey(c, g, NotedVersion(c, g))
    ensures var d := HandleAccepted(PutEntry(c, g, id, text), id, newSeq);
      && id in d.rows && !d.rows[id].dirty && d.rows[id].seqNo == newSeq && d.rows[id].cache == Some(text)
      && d.rows[id].base.None? && Decrypt(d.deks, g, id, d.rows[id].ct) == Some(text)
      && var e := PutEntry(d, g, id, next); e.rows[id].base == Some(text) && e.rows[id].seqNo == newSeq
  {
  }

  /**
    An edit that was accepted reaches every reader: whoever has the author's key for the version,
    and nothing of their own in the way, shows the author's text at the number the server gave it.
   */
  lemma EditReachesReader(s: State, user: Id, author: Store, reader: Store, g: Id, id: Id, text: Json, now: int)
    requires HasKey(author, g, NotedVersion(author, g)) && (id in s.entries ==> s.entries[id].group == g)
    requires var kv := NotedVersion(author, g);
      Get(reader.deks, Slot(g, kv)) == Get(author.deks, Slot(g, kv))
    requires id in reader.rows ==>
      !reader.rows[id].dirty && !reader.rows[id].deleted && (reader.rows[id].conflict ==> reader.rows[id].seqNo <= s.seqNo)
    ensures var (t, r) := PushOne(s, user, AsMutation(id, PutEntry(author, g, id, text).rows[id]), now);
      r.Accepted? ==>
        && id in t.entries
        && var d := ApplyChange(reader, AsChange(id, t.entries[id]));
           id in d.rows && d.rows[id].cache == Some(text) && d.rows[id].seqNo == r.newSeq && !d.rows[id].dirty &&
           !d.rows[id].conflict && !d.rows[id].deleted
  {
    EditCarries(author, g, id, text);
    var m := AsMutation(id, PutEntry(author, g, id, text).rows[id]);
    var (t, r) := PushOne(s, user, m, now);
    if r.Accepted? {
      AcceptedIsStored(s, user, m, now);
      OpenedChangeIsShown(reader, AsChange(id, t.entries[id]));
    }
  }

  /** So does a deletion: the server keeps a tombstone, and it takes the entry from every reader with nothing of their own in the way. */
  lemma DeletionReachesReader(s: State, user: Id, author: Store, reader: Store, id: Id, now: int)
    requires id in author.rows && (id in reader.rows ==> !reader.rows[id].dirty && !reader.rows[id].conflict)
    ensures var (t, r) := PushOne(s, user, AsMutation(id, DeleteEntry(author, id).rows[id]), now);
      r.Accepted? ==>
        && id in t.entries && t.entries[id].deleted && t.entries[id].ct == EMPTY
        && var d := ApplyChange(reader, AsChange(id, t.entries[id])); id !in d.rows && id !in d.waiting
  {
    var m := AsMutation(id, DeleteEntry(author, id).rows[id]);
    if PushOne(s, user, m, now).1.Accepted? {
      AcceptedIsStored(s, user, m, now);
      DeletionIsShown(reader, AsChange(id, PushOne(s, user, m, now).0.entries[id]));
    }
  }

  // ---- equal texts ----

  /**
    A pulled version with the very text of the unpushed edit (as when the answer to its own push was
    lost) never ends in a conflict, given that the text and the merge base read as objects.
   */
  lemma SameTextNeverConflicts(c: Store, ch: Change)
    requires UnpushedEdit(c, ch.entry) && !ch.deleted && !Replayed(c, ch) && HasKey(c, ch.group, ch.kv)
    requires Decrypt(c.deks, ch.group, ch.entry, ch.ct) == c.rows[ch.entry].cache
    ensures ApplyChange(c, ch).rows[ch.entry].conflict <==>
            !ReadsAsObject(c.rows[ch.entry].cache.value) || !ReadableBase(c.rows[ch.entry].base)
  {
    var row := c.rows[ch.entry];
    MergedIff(row.base, row.cache, row.cache, []);
    if ReadsAsObject(row.cache.value) && ReadableBase(row.base) { EqualSidesMerge(row.base, row.cache.value); }
  }
}
