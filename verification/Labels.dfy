/** Whether what a client is about to push is sealed under the key version it is labelled with. */
module Labels {
  import opened Base
  import opened Json
  import opened Wire
  import opened Client
  import opened Agreement
  import Server

  /** A live row about to be pushed is sealed under its label. */
  predicate Labelled(row: Row) {
    row.dirty && !row.deleted ==> row.ct.Sealed? && row.ct.kv == row.kv
  }

  ghost predicate AllLabelled(c: Store) {
    forall id :: id in c.rows ==> Labelled(c.rows[id])
  }

  lemma ReadableLabels(c: Store, ch: Change, text: Json)
    requires AllLabelled(c) && HasKey(c, ch.group, ch.kv)
    ensures AllLabelled(ApplyReadable(c, ch, text))
  {
    if ch.entry in c.rows {
      assert AllLabelled(ApplyOverEdit(c, ch, c.rows[ch.entry], AutoMerge(c.rows[ch.entry], text)));
    }
  }

  lemma ChangeLabels(c: Store, ch: Change)
    requires AllLabelled(c)
    ensures AllLabelled(ApplyChange(c, ch))
  {
    if ch.deleted {
      assert AllLabelled(ApplyTombstone(c, ch));
    } else if HasKey(c, ch.group, ch.kv) && Decrypt(c.deks, ch.group, ch.entry, ch.ct).Some? {
      ReadableLabels(c, ch, Decrypt(c.deks, ch.group, ch.entry, ch.ct).value);
    }
  }

  lemma {:induction false} FlushLabels(c: Store, listed: map<Id, Waiting>, ids: seq<Id>)
    requires AllLabelled(c) && forall id :: id in ids ==> id in listed
    ensures AllLabelled(Flush(c, listed, ids))
  {
    if ids != [] {
      var id := ids[|ids| - 1];
      FlushLabels(c, listed, ids[..|ids| - 1]);
      ChangeLabels(Flush(c, listed, ids[..|ids| - 1]), AsLive(id, listed[id]));
    }
  }

  lemma ConflictLabels(c: Store, id: Id, current: Change)
    requires AllLabelled(c)
    ensures AllLabelled(HandlePushConflict(c, id, current))
  {
  }

  lemma AnswerLabels(c: Store, m: Mutation, r: PushResult)
    requires AllLabelled(c)
    ensures AllLabelled(HandleResult(c, m, r))
  {
    if r.Refused? && r.current.Some? { ConflictLabels(c, r.entry, r.current.value); }
  }

  lemma {:induction false} AnswersLabels(c: Store, ms: seq<Mutation>, rs: seq<PushResult>)
    requires AllLabelled(c) && |ms| == |rs|
    ensures AllLabelled(HandleResults(c, ms, rs))
  {
    if ms != [] {
      var n := |ms| - 1;
      AnswersLabels(c, ms[..n], rs[..n]);
      AnswerLabels(HandleResults(c, ms[..n], rs[..n]), ms[n], rs[n]);
    }
  }

  lemma {:induction false} ReencryptLabels(c: Store, g: Id, newKV: int, ids: seq<Id>)
    requires AllLabelled(c) && forall id :: id in ids ==> id in c.rows
    ensures AllLabelled(Reencrypt(c, g, newKV, ids))
  {
    if ids != [] && HasKey(c, g, newKV) { ReencryptLabels(c, g, newKV, ids[..|ids| - 1]); }
  }

  // ---- the user's edits ----

  /** The restore pushes a text sealed under another version than its tombstone carries. */
  predicate Mislabels(c: Store, id: Id) {
    Restorable(c, id).Some? && c.recycle[id].kv != c.rows[id].kv
  }

  /**
    Every edit labels its row rightly, except a restore: it is pushed under its tombstone's version,
    which a push conflict may have lowered below the one the recycled text is sealed under.
   */
  lemma EditsKeepLabels(c: Store, move: Move)
    requires AllLabelled(c) && (move.Edit? || move.Delete? || move.Restore? || move.Resolve?)
    ensures AllLabelled(Local(c, move)) <==> (move.Restore? ==> !Mislabels(c, move.id))
  {
    if move.Restore? {
      RestoreLabel(c, move.id);
    }
  }

  lemma RestoreLabel(c: Store, id: Id)
    requires AllLabelled(c)
    ensures AllLabelled(RestoreEntry(c, id)) <==> !Mislabels(c, id)
  {
    var d := RestoreEntry(c, id);
    if Restorable(c, id).Some? {
      assert id in d.rows && d.rows[id].ct == c.recycle[id] && d.rows[id].kv == c.rows[id].kv;
      assert forall x :: x in d.rows && x != id ==> x in c.rows && d.rows[x] == c.rows[x];
    }
  }

  // ---- runs ----

  lemma PushLabels(w: World, user: Id, ids: seq<Id>, gaps: seq<seq<Server.Step>>, now: int)
    requires AllLabelled(w.client)
    ensures AllLabelled(Next(w, PushDirty(user, ids, gaps, now)).client)
  {
    if Listing(ids, w.client.rows) && |gaps| == |Outgoing(w.client, ids)| {
      var ms := Outgoing(w.client, ids);
      var (server, results) := PushAmong(w.server, user, ms, gaps, now);
      if |results| == |ms| { AnswersLabels(w.client, ms, results); }
    }
  }

  lemma NextLabels(w: World, move: Move)
    requires AllLabelled(w.client) && (move.Restore? ==> !Mislabels(w.client, move.id))
    ensures AllLabelled(Next(w, move).client)
  {
    match move
    case TakeNext => if w.inbox != [] { ChangeLabels(w.client, w.inbox[0]); }
    case Receive(ch) => ChangeLabels(w.client, ch);
    case PushDirty(user, ids, gaps, now) => PushLabels(w, user, ids, gaps, now);
    case Reseal(g, newKV, ids) => if Listing(ids, w.client.rows) { ReencryptLabels(w.client, g, newKV, ids); }
    case FlushWaiting(ids) =>
      if Listing(ids, w.client.waiting) { FlushLabels(w.client, w.client.waiting, ids); }
    case _ =>
      if move.Edit? || move.Delete? || move.Restore? || move.Resolve? { EditsKeepLabels(w.client, move); }
  }

  /** Without a mislabelling restore, every live row waiting to be pushed is sealed under its label in every reachable state. */
  lemma {:induction false} LabelsHold(moves: seq<Move>)
    requires forall i :: 0 <= i < |moves| && moves[i].Restore? ==>
      !Mislabels(RunWorld(START, moves[..i]).client, moves[i].id)
    ensures AllLabelled(RunWorld(START, moves).client)
  {
    if moves != [] {
      var n := |moves| - 1;
      forall i | 0 <= i < n && moves[..n][i].Restore?
        ensures !Mislabels(RunWorld(START, moves[..n][..i]).client, moves[..n][i].id)
      {
        assert moves[..n][..i] == moves[..i] && moves[..n][i] == moves[i];
      }
      LabelsHold(moves[..n]);
      NextLabels(RunWorld(START, moves[..n]), moves[n]);
    }
  }
}
