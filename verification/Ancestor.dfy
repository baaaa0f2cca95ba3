/**
  The base snapshot of the three-way merge: when it is a version the server really had, and when it
  is the user's own text that no server has seen.
 */
module Ancestor {
  import opened Base
  import opened Json
  import opened Wire
  import opened Server
  import opened ServerInvariant
  import opened ServerHistory
  import opened Client
  import opened Agreement

  /** Some committed version of the entry was sealed from this text. */
  ghost predicate ServerHad(log: seq<Commit>, id: Id, text: Json) {
    exists n :: Committed(log, id, n) && log[n - 1].row.ct.Sealed? && log[n - 1].row.ct.text == text
  }

  ghost predicate BasesOk(log: seq<Commit>, c: Store) {
    forall id :: id in c.rows && c.rows[id].base.Some? ==> ServerHad(log, id, c.rows[id].base.value)
  }

  /** Every snapshot is one that was there before. */
  ghost predicate NoNewBase(c: Store, d: Store) {
    forall id :: id in d.rows && d.rows[id].base.Some? ==> id in c.rows && d.rows[id].base == c.rows[id].base
  }

  lemma OldBasesOk(log: seq<Commit>, c: Store, d: Store)
    requires BasesOk(log, c) && NoNewBase(c, d)
    ensures BasesOk(log, d)
  {
  }

  lemma LaterBasesOk(early: seq<Commit>, late: seq<Commit>, c: Store)
    requires early <= late && BasesOk(early, c)
    ensures BasesOk(late, c)
  {
    forall id | id in c.rows && c.rows[id].base.Some? ensures ServerHad(late, id, c.rows[id].base.value) {
      var n :| Committed(early, id, n) && early[n - 1].row.ct.Sealed? && early[n - 1].row.ct.text == c.rows[id].base.value;
      assert Committed(late, id, n) && late[n - 1] == early[n - 1];
    }
  }

  // ---- only an edit takes a snapshot ----

  lemma OverEditAddsNoBase(c: Store, ch: Change, merged: Option<Json>)
    requires HasKey(c, ch.group, ch.kv) && ch.entry in c.rows
    ensures NoNewBase(c, ApplyOverEdit(c, ch, c.rows[ch.entry], merged))
  {
  }

  lemma ReadableAddsNoBase(c: Store, ch: Change, text: Json)
    requires HasKey(c, ch.group, ch.kv)
    ensures NoNewBase(c, ApplyReadable(c, ch, text))
  {
    if Replayed(c, ch) {
    } else if ch.entry in c.rows && !c.rows[ch.entry].deleted && c.rows[ch.entry].dirty {
      OverEditAddsNoBase(c, ch, AutoMerge(c.rows[ch.entry], text));
    }
  }

  lemma ApplyAddsNoBase(c: Store, ch: Change)
    ensures NoNewBase(c, ApplyChange(c, ch))
  {
    assert NoNewBase(c, ApplyTombstone(c, ch));
    if HasKey(c, ch.group, ch.kv) && Decrypt(c.deks, ch.group, ch.entry, ch.ct).Some? {
      ReadableAddsNoBase(c, ch, Decrypt(c.deks, ch.group, ch.entry, ch.ct).value);
    }
  }

  lemma {:induction false} FlushAddsNoBase(c: Store, listed: map<Id, Waiting>, ids: seq<Id>)
    requires forall id :: id in ids ==> id in listed
    ensures NoNewBase(c, Flush(c, listed, ids))
  {
    if ids != [] {
      var id := ids[|ids| - 1];
      FlushAddsNoBase(c, listed, ids[..|ids| - 1]);
      ApplyAddsNoBase(Flush(c, listed, ids[..|ids| - 1]), AsLive(id, listed[id]));
    }
  }

  lemma {:induction false} ReencryptAddsNoBase(c: Store, g: Id, newKV: int, ids: seq<Id>)
    requires forall id :: id in ids ==> id in c.rows
    ensures NoNewBase(c, Reencrypt(c, g, newKV, ids))
  {
    if ids != [] && HasKey(c, g, newKV) {
      ReencryptAddsNoBase(c, g, newKV, ids[..|ids| - 1]);
    }
  }

  lemma ConflictAddsNoBase(c: Store, id: Id, current: Change)
    ensures NoNewBase(c, HandlePushConflict(c, id, current))
  {
  }

  lemma ResultAddsNoBase(c: Store, m: Mutation, r: PushResult)
    ensures NoNewBase(c, HandleResult(c, m, r))
  {
    if r.Refused? && r.current.Some? {
      ConflictAddsNoBase(c, r.entry, r.current.value);
    }
  }

  lemma {:induction false} ResultsAddNoBase(c: Store, ms: seq<Mutation>, rs: seq<PushResult>)
    requires |ms| == |rs|
    ensures NoNewBase(c, HandleResults(c, ms, rs))
  {
    if ms != [] {
      var n := |ms| - 1;
      ResultsAddNoBase(c, ms[..n], rs[..n]);
      ResultAddsNoBase(HandleResults(c, ms[..n], rs[..n]), ms[n], rs[n]);
    }
  }

  // ---- the edit ----

  /** The edit takes its snapshot from a row that still waits to be pushed. */
  predicate SnapshotsUnpushed(c: Store, id: Id) {
    id in c.rows && c.rows[id].dirty && !c.rows[id].conflict && c.rows[id].base.None? && c.rows[id].cache.Some?
  }

  /**
    An edit keeps the snapshots genuine unless it is the first to take one from an unpushed row, and
    then exactly if the server happens to have had that row's text.
   */
  lemma EditKeepsBases(log: seq<Commit>, c: Store, g: Id, id: Id, text: Json)
    requires StoreOk(log, c) && BasesOk(log, c)
    ensures BasesOk(log, PutEntry(c, g, id, text)) <==>
            PutEntry(c, g, id, text) == c || !SnapshotsUnpushed(c, id) || ServerHad(log, id, c.rows[id].cache.value)
  {
    var d := PutEntry(c, g, id, text);
    if d != c {
      EditBase(c, g, id, text);
      if id in c.rows && !c.rows[id].dirty && !c.rows[id].conflict && c.rows[id].cache.Some? {
        CleanRowHad(log, c, id);
      }
      if BasesOk(log, d) && SnapshotsUnpushed(c, id) {
        assert d.rows[id].base.Some?;
      }
    }
  }

  /** Which snapshot an edit leaves, and that it leaves the other rows alone. */
  lemma EditBase(c: Store, g: Id, id: Id, text: Json)
    requires PutEntry(c, g, id, text) != c
    ensures var d := PutEntry(c, g, id, text);
      && id in d.rows
      && d.rows[id].base == (if id !in c.rows then None
                             else if c.rows[id].base.Some? then c.rows[id].base
                             else if c.rows[id].conflict then None else c.rows[id].cache)
      && forall x :: x != id ==> Get(d.rows, x) == Get(c.rows, x)
  {
  }

  lemma CleanRowHad(log: seq<Commit>, c: Store, id: Id)
    requires StoreOk(log, c) && id in c.rows
    requires !c.rows[id].dirty && !c.rows[id].conflict && c.rows[id].cache.Some?
    ensures ServerHad(log, id, c.rows[id].cache.value)
  {
    var row := c.rows[id];
    assert RowOk(log, id, row);
    assert Committed(log, id, row.seqNo) && log[row.seqNo - 1].row.ct == row.ct;
  }

  /** An edit made after resolving a conflict and before pushing: its snapshot is the user's own choice. */
  lemma EditAfterResolve(c: Store, id: Id, choice: Choice, g: Id, text: Json)
    requires id in c.rows && c.rows[id].conflict && Chosen(c, id, choice).Some?
    requires HasKey(c, c.rows[id].group, c.rows[id].kv)
    requires var d := ResolveConflict(c, id, choice); PutEntry(d, g, id, text) != d
    ensures SnapshotsUnpushed(ResolveConflict(c, id, choice), id)
    ensures PutEntry(ResolveConflict(c, id, choice), g, id, text).rows[id].base == Chosen(c, id, choice)
  {
  }

  // ---- whole runs ----

  ghost predicate EditsAllowed(moves: seq<Move>) {
    forall i :: 0 <= i < |moves| && moves[i].Edit? ==>
      !SnapshotsUnpushed(RunWorld(START, moves[..i]).client, moves[i].id)
  }

  lemma PushKeepsBases(w: World, user: Id, ids: seq<Id>, gaps: seq<seq<Step>>, now: int)
    requires Agrees(w) && BasesOk(w.server.log, w.client)
    requires Listing(ids, w.client.rows) && |gaps| == |Outgoing(w.client, ids)|
    ensures var ms := Outgoing(w.client, ids);
      var (server, results) := PushAmong(w.server, user, ms, gaps, now);
      |results| == |ms| && BasesOk(server.log, HandleResults(w.client, ms, results))
  {
    var ms := Outgoing(w.client, ids);
    PushAmongOk(w.server, user, ms, gaps, now);
    var (server, results) := PushAmong(w.server, user, ms, gaps, now);
    LaterBasesOk(w.server.log, server.log, w.client);
    ResultsAddNoBase(w.client, ms, results);
    OldBasesOk(server.log, w.client, HandleResults(w.client, ms, results));
  }

  lemma ChangeKeepsBases(log: seq<Commit>, c: Store, ch: Change)
    requires BasesOk(log, c)
    ensures BasesOk(log, ApplyChange(c, ch))
  {
    ApplyAddsNoBase(c, ch);
    OldBasesOk(log, c, ApplyChange(c, ch));
  }

  lemma LocalKeepsBases(log: seq<Commit>, c: Store, move: Move)
    requires BasesOk(log, c) && !move.Edit?
    ensures BasesOk(log, Local(c, move))
  {
    if move.Reseal? && Listing(move.ids, c.rows) {
      ReencryptAddsNoBase(c, move.group, move.newKV, move.ids);
    } else if move.FlushWaiting? && Listing(move.ids, c.waiting) {
      FlushAddsNoBase(c, c.waiting, move.ids);
    }
    OldBasesOk(log, c, Local(c, move));
  }

  lemma OthersKeepBases(w: World, step: Step)
    requires BasesOk(w.server.log, w.client)
    ensures BasesOk(Apply(w.server, step).log, w.client)
  {
    StepExtends(w.server, step);
    LaterBasesOk(w.server.log, Apply(w.server, step).log, w.client);
  }

  lemma NextKeepsBases(w: World, move: Move)
    requires Agrees(w) && BasesOk(w.server.log, w.client)
    requires move.Edit? ==> !SnapshotsUnpushed(w.client, move.id)
    ensures BasesOk(Next(w, move).server.log, Next(w, move).client)
  {
    match move
    case Others(step) => OthersKeepBases(w, step);
    case Receive(ch) => ChangeKeepsBases(w.server.log, w.client, ch);
    case TakeNext => if w.inbox != [] { ChangeKeepsBases(w.server.log, w.client, w.inbox[0]); }
    case PushDirty(user, ids, gaps, now) =>
      if Listing(ids, w.client.rows) && |gaps| == |Outgoing(w.client, ids)| {
        PushKeepsBases(w, user, ids, gaps, now);
      }
    case Edit(g, id, text) => EditKeepsBases(w.server.log, w.client, g, id, text);
    case Fetch(_) =>
    case Commit =>
    case _ => LocalKeepsBases(w.server.log, w.client, move);
  }

  /**
    As long as no edit takes its snapshot from an unpushed row, in every reachable state every base of
    a three-way merge is a text the server committed for that entry.
   */
  lemma {:induction false} BasesAreServerTexts(moves: seq<Move>)
    requires EditsAllowed(moves)
    ensures var w := RunWorld(START, moves); BasesOk(w.server.log, w.client)
  {
    if moves != [] {
      var n := |moves| - 1;
      forall i | 0 <= i < n && moves[..n][i].Edit?
        ensures !SnapshotsUnpushed(RunWorld(START, moves[..n][..i]).client, moves[..n][i].id)
      {
        assert moves[..n][..i] == moves[..i] && moves[..n][i] == moves[i];
      }
      BasesAreServerTexts(moves[..n]);
      RunAgrees(START, moves[..n]);
      NextKeepsBases(RunWorld(START, moves[..n]), moves[n]);
    }
  }
}
