/**
  One client against the server: whatever anybody does, a local row that is not waiting to be pushed
  holds what the server committed, and a row that is waiting names a real version of its entry.
 */
module Agreement {
  import opened Base
  import opened Json
  import opened Wire
  import opened Server
  import opened ServerInvariant
  import opened ServerHistory
  import opened Pulling
  import opened Client
  import opened Cursor

  // ---- the claim ----

  ghost predicate Committed(log: seq<Commit>, id: Id, n: int) {
    1 <= n <= |log| && log[n - 1].m.entry == id
  }

  ghost predicate CleanOk(log: seq<Commit>, id: Id, row: Row) {
    && Committed(log, id, row.seqNo)
    && log[row.seqNo - 1].row.ct == row.ct
    && (!log[row.seqNo - 1].row.deleted ==> log[row.seqNo - 1].row.kv == row.kv)
  }

  /** The cached text is the one sealed in the row. */
  ghost predicate CacheOk(id: Id, row: Row) {
    row.cache.Some? && !row.conflict ==>
      row.ct.Sealed? && row.ct.entry == id && row.ct.group == row.group && row.ct.text == row.cache.value
  }

  ghost predicate RowOk(log: seq<Commit>, id: Id, row: Row) {
    && (!row.dirty ==> CleanOk(log, id, row))
    && (row.dirty ==> row.seqNo == 0 || Committed(log, id, row.seqNo))
    && CacheOk(id, row)
  }

  ghost predicate StoreOk(log: seq<Commit>, c: Store) {
    && (forall id :: id in c.rows ==> RowOk(log, id, c.rows[id]))
    && forall id :: id in c.waiting ==> Genuine(log, AsLive(id, c.waiting[id]))
  }

  // ---- one operation at a time, against a fixed log ----

  /** Nothing but the rows of one entry, and what waits for it, differs. */
  ghost predicate OnlyEntry(c: Store, d: Store, id: Id) {
    && (forall x :: x != id ==> Get(d.rows, x) == Get(c.rows, x))
    && forall x :: x != id ==> Get(d.waiting, x) == Get(c.waiting, x)
  }

  ghost predicate EntryOk(log: seq<Commit>, c: Store, id: Id) {
    && (id in c.rows ==> RowOk(log, id, c.rows[id]))
    && (id in c.waiting ==> Genuine(log, AsLive(id, c.waiting[id])))
  }

  lemma OneEntryKeepsOk(log: seq<Commit>, c: Store, d: Store, id: Id)
    requires StoreOk(log, c) && OnlyEntry(c, d, id) && EntryOk(log, d, id)
    ensures StoreOk(log, d)
  {
    forall x | x in d.rows ensures RowOk(log, x, d.rows[x]) {
      if x != id { assert Get(d.rows, x) == Get(c.rows, x); }
    }
    forall x | x in d.waiting ensures Genuine(log, AsLive(x, d.waiting[x])) {
      if x != id { assert Get(d.waiting, x) == Get(c.waiting, x); }
    }
  }

  lemma TombstoneTouchesOne(c: Store, ch: Change)
    ensures OnlyEntry(c, ApplyTombstone(c, ch), ch.entry)
  {
  }

  lemma ReadableTouchesOne(c: Store, ch: Change, text: Json)
    requires HasKey(c, ch.group, ch.kv)
    ensures OnlyEntry(c, ApplyReadable(c, ch, text), ch.entry)
  {
  }

  lemma ApplyTouchesOne(c: Store, ch: Change)
    ensures OnlyEntry(c, ApplyChange(c, ch), ch.entry)
  {
    if ch.deleted {
      TombstoneTouchesOne(c, ch);
    } else if HasKey(c, ch.group, ch.kv) && Decrypt(c.deks, ch.group, ch.entry, ch.ct).Some? {
      ReadableTouchesOne(c, ch, Decrypt(c.deks, ch.group, ch.entry, ch.ct).value);
    }
  }

  lemma TombstoneOk(log: seq<Commit>, c: Store, ch: Change)
    requires EntryOk(log, c, ch.entry) && Genuine(log, ch) && ch.deleted
    ensures EntryOk(log, ApplyTombstone(c, ch), ch.entry)
  {
  }

  lemma OverEditOk(log: seq<Commit>, c: Store, ch: Change, row: Row, merged: Option<Json>)
    requires Genuine(log, ch) && !ch.deleted && HasKey(c, ch.group, ch.kv)
    ensures EntryOk(log, ApplyOverEdit(c, ch, row, merged), ch.entry)
  {
  }

  lemma ReadableOk(log: seq<Commit>, c: Store, ch: Change, text: Json)
    requires EntryOk(log, c, ch.entry) && Genuine(log, ch) && !ch.deleted && HasKey(c, ch.group, ch.kv)
    requires Decrypt(c.deks, ch.group, ch.entry, ch.ct) == Some(text)
    ensures EntryOk(log, ApplyReadable(c, ch, text), ch.entry)
  {
    if Replayed(c, ch) {
    } else if ch.entry in c.rows && !c.rows[ch.entry].deleted && c.rows[ch.entry].dirty {
      OverEditOk(log, c, ch, c.rows[ch.entry], AutoMerge(c.rows[ch.entry], text));
    }
  }

  lemma ApplyKeepsOk(log: seq<Commit>, c: Store, ch: Change)
    requires StoreOk(log, c) && Genuine(log, ch)
    ensures StoreOk(log, ApplyChange(c, ch))
  {
    ApplyTouchesOne(c, ch);
    if ch.deleted {
      TombstoneOk(log, c, ch);
    } else if HasKey(c, ch.group, ch.kv) && Decrypt(c.deks, ch.group, ch.entry, ch.ct).Some? {
      ReadableOk(log, c, ch, Decrypt(c.deks, ch.group, ch.entry, ch.ct).value);
    }
    assert EntryOk(log, ApplyChange(c, ch), ch.entry);
    OneEntryKeepsOk(log, c, ApplyChange(c, ch), ch.entry);
  }

  lemma {:induction false} FlushKeepsOk(log: seq<Commit>, c: Store, listed: map<Id, Waiting>, ids: seq<Id>)
    requires StoreOk(log, c) && forall id :: id in ids ==> id in listed
    requires forall id :: id in listed ==> Genuine(log, AsLive(id, listed[id]))
    ensures StoreOk(log, Flush(c, listed, ids))
  {
    if ids != [] {
      var id := ids[|ids| - 1];
      FlushKeepsOk(log, c, listed, ids[..|ids| - 1]);
      var before := Flush(c, listed, ids[..|ids| - 1]);
      if HasKey(before, listed[id].group, listed[id].kv) {
        ApplyKeepsOk(log, before, AsLive(id, listed[id]));
      }
    }
  }

  lemma ConflictAnswerOk(log: seq<Commit>, c: Store, id: Id, current: Change)
    requires EntryOk(log, c, id) && Genuine(log, current) && current.entry == id
    ensures EntryOk(log, HandlePushConflict(c, id, current), id)
    ensures OnlyEntry(c, HandlePushConflict(c, id, current), id)
  {
    assert Committed(log, id, current.seqNo);
  }

  lemma AcceptanceOk(log: seq<Commit>, c: Store, m: Mutation, newSeq: int)
    requires Numbered(log) && EntryOk(log, c, m.entry) && ResultOk(log, m, Accepted(m.entry, newSeq))
    requires m.entry in c.rows && m == AsMutation(m.entry, c.rows[m.entry])
    ensures EntryOk(log, HandleAccepted(c, m.entry, newSeq), m.entry)
    ensures OnlyEntry(c, HandleAccepted(c, m.entry, newSeq), m.entry)
  {
  }

  /** Answers are handled correctly as long as the row is still the one that was sent. */
  lemma ResultKeepsOk(log: seq<Commit>, c: Store, m: Mutation, r: PushResult)
    requires Numbered(log) && StoreOk(log, c) && ResultOk(log, m, r)
    requires m.entry in c.rows && m == AsMutation(m.entry, c.rows[m.entry])
    ensures StoreOk(log, HandleResult(c, m, r))
    ensures forall id :: id != m.entry ==> Get(HandleResult(c, m, r).rows, id) == Get(c.rows, id)
  {
    var d := HandleResult(c, m, r);
    assert EntryOk(log, c, m.entry);
    if r.Accepted? {
      AcceptanceOk(log, c, m, r.newSeq);
    } else if r.code == ERR_CONFLICT {
      ConflictAnswerOk(log, c, m.entry, r.current.value);
    }
    assert OnlyEntry(c, d, m.entry) && EntryOk(log, d, m.entry);
    OneEntryKeepsOk(log, c, d, m.entry);
  }

  predicate DistinctEntries(ms: seq<Mutation>) {
    forall i, j :: 0 <= i < j < |ms| ==> ms[i].entry != ms[j].entry
  }

  ghost predicate Sent(c: Store, ms: seq<Mutation>) {
    forall i :: 0 <= i < |ms| ==> ms[i].entry in c.rows && ms[i] == AsMutation(ms[i].entry, c.rows[ms[i].entry])
  }

  lemma {:induction false} ResultsKeepOk(log: seq<Commit>, c: Store, ms: seq<Mutation>, rs: seq<PushResult>)
    requires Numbered(log) && StoreOk(log, c) && |ms| == |rs| && DistinctEntries(ms) && Sent(c, ms)
    requires forall i :: 0 <= i < |ms| ==> ResultOk(log, ms[i], rs[i])
    ensures StoreOk(log, HandleResults(c, ms, rs))
    ensures forall id :: (forall i :: 0 <= i < |ms| ==> ms[i].entry != id) ==>
              Get(HandleResults(c, ms, rs).rows, id) == Get(c.rows, id)
  {
    if ms != [] {
      var n := |ms| - 1;
      ResultsKeepOk(log, c, ms[..n], rs[..n]);
      var before := HandleResults(c, ms[..n], rs[..n]);
      assert Get(before.rows, ms[n].entry) == Get(c.rows, ms[n].entry);
      ResultKeepsOk(log, before, ms[n], rs[n]);
      forall id | forall i :: 0 <= i < |ms| ==> ms[i].entry != id
        ensures Get(HandleResults(c, ms, rs).rows, id) == Get(c.rows, id)
      {
        assert ms[n].entry != id;
        assert forall i :: 0 <= i < n ==> ms[..n][i] == ms[i];
      }
    }
  }

  lemma {:induction false} ReencryptKeepsOk(log: seq<Commit>, c: Store, g: Id, newKV: int, ids: seq<Id>)
    requires StoreOk(log, c) && forall id :: id in ids ==> id in c.rows
    ensures StoreOk(log, Reencrypt(c, g, newKV, ids))
  {
    if ids != [] && HasKey(c, g, newKV) {
      var n := |ids| - 1;
      ReencryptKeepsOk(log, c, g, newKV, ids[..n]);
      var before := Reencrypt(c, g, newKV, ids[..n]);
      var after := ReencryptRow(before, g, newKV, ids[n]);
      assert RowOk(log, ids[n], after.rows[ids[n]]) by { assert RowOk(log, ids[n], before.rows[ids[n]]); }
      assert forall id :: id in after.rows && id != ids[n] ==> after.rows[id] == before.rows[id];
    }
  }

  lemma EditsKeepOk(log: seq<Commit>, c: Store, move: Move)
    requires StoreOk(log, c) && !move.Reseal? && !move.FlushWaiting?
    ensures StoreOk(log, Local(c, move))
  {
    if move.Edit? || move.Delete? || move.Restore? || move.Resolve? {
      var d := Local(c, move);
      assert EntryOk(log, c, move.id);
      assert OnlyEntry(c, d, move.id) && EntryOk(log, d, move.id);
      OneEntryKeepsOk(log, c, d, move.id);
    }
  }

  // ---- a batch among other people's steps ----

  /** The server handles the batch mutation by mutation; before the i-th, others take the steps `gaps[i]`. */
  function PushAmong(s: State, user: Id, ms: seq<Mutation>, gaps: seq<seq<Step>>, now: int): (State, seq<PushResult>)
    requires |gaps| == |ms|
  {
    if ms == [] then (s, [])
    else
      var n := |ms| - 1;
      var (before, results) := PushAmong(s, user, ms[..n], gaps[..n], now);
      var (after, r) := PushOne(Run(before, gaps[n]), user, ms[n], now);
      (after, results + [r])
  }

  lemma {:induction false} RunKeepsInvFrom(s: State, steps: seq<Step>)
    requires Inv(s)
    ensures Inv(Run(s, steps)) && s.log <= Run(s, steps).log
  {
    RunExtends(s, steps);
    if steps != [] {
      RunKeepsInvFrom(s, steps[..|steps| - 1]);
      StepKeepsInv(Run(s, steps[..|steps| - 1]), steps[|steps| - 1]);
    }
  }

  lemma {:induction false} PushAmongOk(s: State, user: Id, ms: seq<Mutation>, gaps: seq<seq<Step>>, now: int)
    requires Inv(s) && |gaps| == |ms|
    ensures var (t, rs) := PushAmong(s, user, ms, gaps, now);
      Inv(t) && s.log <= t.log && |rs| == |ms| && forall i :: 0 <= i < |ms| ==> ResultOk(t.log, ms[i], rs[i])
  {
    if ms != [] {
      var n := |ms| - 1;
      PushAmongOk(s, user, ms[..n], gaps[..n], now);
      var (before, rs) := PushAmong(s, user, ms[..n], gaps[..n], now);
      RunKeepsInvFrom(before, gaps[n]);
      var mid := Run(before, gaps[n]);
      PushResultOk(mid, user, ms[n], now);
      StepKeepsInv(mid, Push(user, ms[n], now));
      PushExtends(mid, user, ms[n], now);
      var t := PushOne(mid, user, ms[n], now).0;
      forall i | 0 <= i < n ensures ResultOk(t.log, ms[i], rs[i]) {
        assert ms[..n][i] == ms[i];
        ResultOkLater(before.log, t.log, ms[i], rs[i]);
      }
    }
  }

  // ---- whole runs ----

  /**
    The server, the client, and what the client has pulled and not yet applied: `inbox`, with the
    cursor value `target` to be stored once the inbox is empty.
   */
  datatype World = World(server: State, client: Store, inbox: seq<Change>, target: int)

  const START := World(EMPTY_STATE, EMPTY_STORE, [], 0)

  datatype Move =
    | Others(step: Step)
    | Fetch(user: Id)
    | TakeNext
    | Commit
    | Receive(ch: Change)
    | FlushWaiting(ids: seq<Id>)
    | PushDirty(user: Id, ids: seq<Id>, gaps: seq<seq<Step>>, now: int)
    | Reseal(group: Id, newKV: int, ids: seq<Id>)
    | Learn(keys: map<Slot, Key>)
    | Note(group: Id, note: GroupNote)
    | Hold(groups: set<Id>)
    | Edit(group: Id, id: Id, text: Json)
    | Delete(id: Id)
    | Restore(id: Id)
    | Resolve(id: Id, choice: Choice)

  /** A listing of table rows: rows that exist, each at most once. */
  predicate Listing<V>(ids: seq<Id>, rows: map<Id, V>) {
    && (forall i :: 0 <= i < |ids| ==> ids[i] in rows)
    && forall i, j :: 0 <= i < j < |ids| ==> ids[i] != ids[j]
  }

  /** The moves that touch only the client. */
  function Local(c: Store, move: Move): Store {
    match move
    case Reseal(g, newKV, ids) => if Listing(ids, c.rows) then Reencrypt(c, g, newKV, ids) else c
    case FlushWaiting(ids) => if Listing(ids, c.waiting) then Flush(c, c.waiting, ids) else c
    case Learn(keys) => c.(deks := c.deks + keys)
    case Note(g, note) => c.(states := c.states[g := note])
    case Hold(gs) => c.(held := gs)
    case Edit(g, id, text) => PutEntry(c, g, id, text)
    case Delete(id) => DeleteEntry(c, id)
    case Restore(id) => RestoreEntry(c, id)
    case Resolve(id, choice) => ResolveConflict(c, id, choice)
    case _ => c
  }

  /** The changes of one pull, and the cursor value it leads to. */
  ghost function Pulled(s: State, user: Id, last: int): seq<Change> {
    Mine(Page(s, Clamp(last), PULL_LIMIT), UserGroups(s, user))
  }

  /**
    A round is Fetch, TakeNext for every change, Commit; other moves may come in between, and a round
    that fails is simply followed by another Fetch.  A change received outside a round (from the full
    pull of a group) may be old, but it is one the server once committed.
   */
  ghost function Next(w: World, move: Move): World {
    match move
    case Others(step) => w.(server := Apply(w.server, step))
    case Fetch(user) =>
      var changes := Pulled(w.server, user, w.client.lastSeq);
      w.(inbox := changes, target := NextCursor(w.client.lastSeq, changes, w.server.seqNo))
    case TakeNext =>
      if w.inbox == [] then w else w.(client := ApplyChange(w.client, w.inbox[0]), inbox := w.inbox[1..])
    case Commit =>
      if w.inbox != [] then w else w.(client := w.client.(lastSeq := Max(w.client.lastSeq, w.target)))
    case Receive(ch) => if Genuine(w.server.log, ch) then w.(client := ApplyChange(w.client, ch)) else w
    case PushDirty(user, ids, gaps, now) =>
      if !Listing(ids, w.client.rows) || |gaps| != |Outgoing(w.client, ids)| then w
      else
        var ms := Outgoing(w.client, ids);
        var (server, results) := PushAmong(w.server, user, ms, gaps, now);
        if |results| != |ms| then w
        else w.(server := server, client := HandleResults(w.client, ms, results))
    case _ => w.(client := Local(w.client, move))
  }

  ghost function RunWorld(w: World, moves: seq<Move>): World {
    if moves == [] then w else Next(RunWorld(w, moves[..|moves| - 1]), moves[|moves| - 1])
  }

  ghost predicate Agrees(w: World) {
    && Inv(w.server) && StoreOk(w.server.log, w.client)
    && forall ch :: ch in w.inbox ==> Genuine(w.server.log, ch)
  }

  lemma StoreOkLater(early: seq<Commit>, late: seq<Commit>, c: Store)
    requires early <= late && StoreOk(early, c)
    ensures StoreOk(late, c)
  {
    forall id | id in c.rows ensures RowOk(late, id, c.rows[id]) {
      var row := c.rows[id];
      if Committed(early, id, row.seqNo) { assert late[row.seqNo - 1] == early[row.seqNo - 1]; }
    }
    forall id | id in c.waiting ensures Genuine(late, AsLive(id, c.waiting[id])) {
      GenuineLater(early, late, AsLive(id, c.waiting[id]));
    }
  }

  lemma InboxLater(early: seq<Commit>, late: seq<Commit>, inbox: seq<Change>)
    requires early <= late && forall ch :: ch in inbox ==> Genuine(early, ch)
    ensures forall ch :: ch in inbox ==> Genuine(late, ch)
  {
    forall ch | ch in inbox ensures Genuine(late, ch) { GenuineLater(early, late, ch); }
  }

  lemma {:induction false} OutgoingSent(c: Store, ids: seq<Id>)
    requires Listing(ids, c.rows)
    ensures Sent(c, Outgoing(c, ids)) && DistinctEntries(Outgoing(c, ids))
    ensures forall i :: 0 <= i < |Outgoing(c, ids)| ==> Outgoing(c, ids)[i].entry in ids
  {
    if ids != [] {
      OutgoingSent(c, ids[..|ids| - 1]);
    }
  }

  lemma PushAgrees(w: World, user: Id, ids: seq<Id>, gaps: seq<seq<Step>>, now: int)
    requires Agrees(w) && Listing(ids, w.client.rows) && |gaps| == |Outgoing(w.client, ids)|
    ensures Agrees(Next(w, PushDirty(user, ids, gaps, now)))
  {
    var ms := Outgoing(w.client, ids);
    OutgoingSent(w.client, ids);
    PushAmongOk(w.server, user, ms, gaps, now);
    var (server, results) := PushAmong(w.server, user, ms, gaps, now);
    StoreOkLater(w.server.log, server.log, w.client);
    InboxLater(w.server.log, server.log, w.inbox);
    ResultsKeepOk(server.log, w.client, ms, results);
  }

  lemma OthersAgree(w: World, step: Step)
    requires Agrees(w)
    ensures Agrees(Next(w, Others(step)))
  {
    StepKeepsInv(w.server, step);
    StepExtends(w.server, step);
    StoreOkLater(w.server.log, Apply(w.server, step).log, w.client);
    InboxLater(w.server.log, Apply(w.server, step).log, w.inbox);
  }

  lemma RoundAgrees(w: World, move: Move)
    requires Agrees(w) && (move.Fetch? || move.TakeNext? || move.Commit? || move.Receive?)
    ensures Agrees(Next(w, move))
  {
    match move
    case Fetch(user) =>
      forall ch | ch in Pulled(w.server, user, w.client.lastSeq) ensures Genuine(w.server.log, ch) {
        PulledGenuine(w.server, user, w.client.lastSeq, ch);
      }
    case TakeNext =>
      if w.inbox != [] { ApplyKeepsOk(w.server.log, w.client, w.inbox[0]); }
    case Commit =>
    case Receive(ch) =>
      if Genuine(w.server.log, ch) { ApplyKeepsOk(w.server.log, w.client, ch); }
  }

  lemma NextAgrees(w: World, move: Move)
    requires Agrees(w)
    ensures Agrees(Next(w, move))
  {
    match move
    case Others(step) => OthersAgree(w, step);
    case PushDirty(user, ids, gaps, now) =>
      if Listing(ids, w.client.rows) && |gaps| == |Outgoing(w.client, ids)| { PushAgrees(w, user, ids, gaps, now); }
    case Reseal(g, newKV, ids) =>
      if Listing(ids, w.client.rows) { ReencryptKeepsOk(w.server.log, w.client, g, newKV, ids); }
    case FlushWaiting(ids) =>
      if Listing(ids, w.client.waiting) { FlushKeepsOk(w.server.log, w.client, w.client.waiting, ids); }
    case _ =>
      if move.Fetch? || move.TakeNext? || move.Commit? || move.Receive? {
        RoundAgrees(w, move);
      } else {
        EditsKeepOk(w.server.log, w.client, move);
      }
  }

  /** From any world in agreement. */
  lemma {:induction false} RunAgrees(w: World, moves: seq<Move>)
    requires Agrees(w)
    ensures Agrees(RunWorld(w, moves))
  {
    if moves != [] {
      RunAgrees(w, moves[..|moves| - 1]);
      NextAgrees(RunWorld(w, moves[..|moves| - 1]), moves[|moves| - 1]);
    }
  }

  /**
    In every reachable state each row that is not dirty holds exactly the ciphertext (and, unless it
    is a tombstone's, the key version) the server committed for that entry at the row's Seq; each
    dirty row's Seq is 0 or one the server assigned to that entry; and the cached text of a row
    without conflict is the text sealed in it.
   */
  lemma AgreementHolds(moves: seq<Move>)
    ensures var w := RunWorld(START, moves); Inv(w.server) && StoreOk(w.server.log, w.client)
  {
    RunAgrees(START, moves);
  }

  lemma {:induction false} RunWorldConcat(w: World, a: seq<Move>, b: seq<Move>)
    ensures RunWorld(w, a + b) == RunWorld(RunWorld(w, a), b)
  {
    if b == [] {
      assert a + b == a;
    } else {
      var n := |b| - 1;
      RunWorldConcat(w, a, b[..n]);
      assert (a + b)[..|a + b| - 1] == a + b[..n];
    }
  }

  /** A version the server stores is genuine. */
  lemma VersionGenuine(s: State, n: int)
    requires Stored(s) && CurrentAt(s, n)
    ensures ChangeAt(s, n).seqNo == n && Genuine(s.log, ChangeAt(s, n))
  {
    assert Latest(s.log, n - 1);
  }

  /** What a pull carries is genuine, so `Receive` covers it. */
  lemma PulledGenuine(s: State, user: Id, since: int, ch: Change)
    requires Inv(s) && ch in Mine(Page(s, Clamp(since), PULL_LIMIT), UserGroups(s, user))
    ensures Genuine(s.log, ch)
  {
    PageMembers(s, Clamp(since), PULL_LIMIT);
    MineMembers(Page(s, Clamp(since), PULL_LIMIT), UserGroups(s, user));
    VersionGenuine(s, ch.seqNo);
  }

  // ---- where the argument needs the push to be undisturbed ----

  /**
    An acceptance that arrives after the row has changed.  Agreement survives it exactly when the
    row is gone, has become a tombstone, or still holds what was sent.
   */
  lemma LateAcceptance(log: seq<Commit>, c: Store, m: Mutation, newSeq: int)
    requires Numbered(log) && StoreOk(log, c) && ResultOk(log, m, Accepted(m.entry, newSeq))
    ensures StoreOk(log, HandleAccepted(c, m.entry, newSeq)) <==>
            m.entry !in c.rows || c.rows[m.entry].deleted ||
            (c.rows[m.entry].ct == m.ct && (m.deleted || c.rows[m.entry].kv == m.kv))
  {
    var d := HandleAccepted(c, m.entry, newSeq);
    if m.entry in c.rows && !c.rows[m.entry].deleted {
      assert RowOk(log, m.entry, c.rows[m.entry]);
      assert d.rows[m.entry] == c.rows[m.entry].(dirty := false, base := None, seqNo := newSeq);
      assert forall id :: id in d.rows && id != m.entry ==> d.rows[id] == c.rows[id];
      if StoreOk(log, d) { assert RowOk(log, m.entry, d.rows[m.entry]); }
    }
  }

  /**
    A deletion made while a mutation of the entry is being pushed.  The answer removes the local
    tombstone; the server has the entry deleted exactly if the mutation on its way was itself a
    tombstone, so the deletion is lost if and only if it was an edit.
   */
  lemma DeletionDuringPush(log: seq<Commit>, c: Store, m: Mutation, newSeq: int)
    requires Sent(c, [m]) && ResultOk(log, m, Accepted(m.entry, newSeq))
    ensures m.entry !in HandleAccepted(DeleteEntry(c, m.entry), m.entry, newSeq).rows
    ensures log[newSeq - 1].m.entry == m.entry && (log[newSeq - 1].row.deleted <==> m.deleted)
  {
    assert [m][0] == m;
  }
}
