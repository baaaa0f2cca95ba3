/** What a round does with texts: it sends the user's changes and shows what it pulled. */
module RoundTexts {
  import opened Base
  import opened Json
  import opened Wire
  import opened Server
  import opened ServerHistory
  import opened Authority
  import opened Client
  import opened ClientSafety
  import opened Agreement
  import opened Exchange
  import opened RekeyFlow
  import opened RoundSpec
  import opened RoundKeys
  import opened SyncService

  // ---- one batch ----

  lemma {:induction false} PushesElsewhere(s: State, user: Id, ms: seq<Mutation>, now: int, id: Id)
    requires forall i :: 0 <= i < |ms| ==> ms[i].entry != id
    ensures Get(PushAll(s, user, ms, now).0.entries, id) == Get(s.entries, id)
  {
    if ms != [] {
      var n := |ms| - 1;
      PushesElsewhere(s, user, ms[..n], now, id);
      AcceptedIff(PushAll(s, user, ms[..n], now).0, user, ms[n], now);
      OnePushElsewhere(PushAll(s, user, ms[..n], now).0, user, ms[n], now, id);
    }
  }

  lemma OnePushElsewhere(s: State, user: Id, m: Mutation, now: int, id: Id)
    requires m.entry != id
    ensures Get(PushOne(s, user, m, now).0.entries, id) == Get(s.entries, id)
  {
    AcceptedIff(s, user, m, now);
    if PushOne(s, user, m, now).1.Accepted? { AcceptedIsStored(s, user, m, now); }
  }

  /** The k-th mutation of a batch of different entries is accepted as if it came alone, and stays stored. */
  lemma {:induction false} BatchDelivers(s: State, user: Id, ms: seq<Mutation>, now: int, k: nat)
    requires k < |ms| && DistinctEntries(ms)
    requires MayWrite(s, user, ms[k].group) && WireSize(ms[k].ct) <= MAX_CIPHERTEXT
    requires ms[k].kv == s.groups[ms[k].group].kv && UpToDate(s, ms[k].entry, ms[k].base)
    ensures var (t, rs) := PushAll(s, user, ms, now);
      && |rs| == |ms| && rs[k].Accepted? && rs[k].entry == ms[k].entry && ms[k].entry in t.entries
      && t.entries[ms[k].entry].seqNo == rs[k].newSeq && t.entries[ms[k].entry].ct == ms[k].ct
      && t.entries[ms[k].entry].kv == ms[k].kv && t.entries[ms[k].entry].deleted == ms[k].deleted
    decreases |ms|
  {
    var n := |ms| - 1;
    var before := PushAll(s, user, ms[..n], now).0;
    AnswersCount(s, user, ms[..n], now);
    if k < n {
      BatchDelivers(s, user, ms[..n], now, k);
      OnePushElsewhere(before, user, ms[n], now, ms[k].entry);
    } else {
      PushesSpare(s, user, ms[..n], now, ms[n].group);
      PushesElsewhere(s, user, ms[..n], now, ms[n].entry);
      AcceptedIff(before, user, ms[n], now);
      AcceptedIsStored(before, user, ms[n], now);
    }
  }

  lemma {:induction false} AnswersCount(s: State, user: Id, ms: seq<Mutation>, now: int)
    ensures var rs := PushAll(s, user, ms, now).1;
      |rs| == |ms| && forall i :: 0 <= i < |ms| ==> rs[i].entry == ms[i].entry
  {
    if ms != [] { AnswersCount(s, user, ms[..|ms| - 1], now); }
  }

  lemma AnswerElsewhere(c: Store, m: Mutation, r: PushResult, id: Id)
    requires r.entry != id
    ensures Get(HandleResult(c, m, r).rows, id) == Get(c.rows, id)
  {
    if r.Refused? && r.current.Some? { ConflictElsewhere(c, r.entry, r.current.value, id); }
  }

  lemma ConflictElsewhere(c: Store, other: Id, current: Change, id: Id)
    requires other != id
    ensures Get(HandlePushConflict(c, other, current).rows, id) == Get(c.rows, id)
  {
  }

  lemma {:induction false} AnswersElsewhere(c: Store, ms: seq<Mutation>, rs: seq<PushResult>, id: Id)
    requires |ms| == |rs| && forall i :: 0 <= i < |rs| ==> rs[i].entry != id
    ensures Get(HandleResults(c, ms, rs).rows, id) == Get(c.rows, id)
  {
    if ms != [] {
      var n := |ms| - 1;
      AnswersElsewhere(c, ms[..n], rs[..n], id);
      AnswerElsewhere(HandleResults(c, ms[..n], rs[..n]), ms[n], rs[n], id);
    }
  }

  lemma {:induction false} AnswerArrives(c: Store, ms: seq<Mutation>, rs: seq<PushResult>, k: nat)
    requires |ms| == |rs| && k < |ms| && rs[k].Accepted? && rs[k].entry in c.rows
    requires forall i :: 0 <= i < |rs| && i != k ==> rs[i].entry != rs[k].entry
    ensures var id := rs[k].entry;
      Get(HandleResults(c, ms, rs).rows, id) ==
        if c.rows[id].deleted then None else Some(c.rows[id].(dirty := false, base := None, seqNo := rs[k].newSeq))
    decreases |ms|
  {
    var n, id := |ms| - 1, rs[k].entry;
    var before := HandleResults(c, ms[..n], rs[..n]);
    if k < n {
      AnswerArrives(c, ms[..n], rs[..n], k);
      AnswerElsewhere(before, ms[n], rs[n], id);
    } else {
      AnswersElsewhere(c, ms[..n], rs[..n], id);
      assert Get(before.rows, id) == Get(c.rows, id);
    }
  }

  /**
    A push that gets its answer delivers every dirty row that the server can take: the server has the
    row's ciphertext, and the client's row is clean at the number it got, or gone if it was a deletion.
   */
  lemma PushDelivers(c: Store, s: State, user: Id, ids: seq<Id>, now: int, d: Store, t: State, id: Id)
    requires PushEnds(c, s, user, ids, now, Works, d, t, true)
    requires id in c.rows && c.rows[id].dirty && c.rows[id].group !in c.held
    requires var row := c.rows[id];
      && MayWrite(s, user, row.group) && WireSize(row.ct) <= MAX_CIPHERTEXT
      && row.kv == s.groups[row.group].kv && UpToDate(s, id, row.seqNo)
    ensures var row := c.rows[id];
      && id in t.entries && t.entries[id].ct == row.ct && t.entries[id].kv == row.kv && t.entries[id].deleted == row.deleted
      && Get(d.rows, id) ==
           if row.deleted then None else Some(row.(dirty := false, base := None, seqNo := t.entries[id].seqNo))
  {
    var ms := Outgoing(c, ids);
    assert id in (set x | x in ids);
    OutgoingHas(c, ids, id);
    OutgoingSent(c, ids);
    var k :| 0 <= k < |ms| && ms[k].entry == id;
    assert ms[k] == AsMutation(id, c.rows[id]);
    BatchDelivers(s, user, ms, now, k);
    AnswersCount(s, user, ms, now);
    AnswerArrives(c, ms, PushAll(s, user, ms, now).1, k);
  }

  lemma {:induction false} OutgoingDirty(c: Store, ids: seq<Id>)
    requires forall id :: id in ids ==> id in c.rows
    ensures forall m :: m in Outgoing(c, ids) ==> m.entry in c.rows && c.rows[m.entry].dirty
  {
    if ids != [] {
      OutgoingDirty(c, ids[..|ids| - 1]);
    }
  }

  /** A row that is not to be pushed is untouched by a push. */
  lemma CleanRowStays(c: Store, s: State, user: Id, ids: seq<Id>, now: int, fate: Fate, d: Store, t: State, ok: bool, id: Id)
    requires PushEnds(c, s, user, ids, now, fate, d, t, ok) && (id in c.rows ==> !c.rows[id].dirty)
    ensures Get(d.rows, id) == Get(c.rows, id)
  {
    var ms := Outgoing(c, ids);
    OutgoingDirty(c, ids);
    AnswersCount(s, user, ms, now);
    var rs := PushAll(s, user, ms, now).1;
    forall i | 0 <= i < |rs| ensures rs[i].entry != id {
      assert rs[i].entry == ms[i].entry && ms[i] in ms;
    }
    AnswersElsewhere(c, ms, rs, id);
  }

  // ---- what was pulled ----

  /** Nothing of the user's is in the way of this version: no row, or a clean one that is not ahead of it as a conflict. */
  predicate NothingInTheWay(c: Store, ch: Change) {
    ch.entry in c.rows ==> !c.rows[ch.entry].dirty && !c.rows[ch.entry].deleted && !Replayed(c, ch)
  }

  predicate Readable(deks: map<Slot, Key>, ch: Change) {
    !ch.deleted && Slot(ch.group, ch.kv) in deks && Decrypt(deks, ch.group, ch.entry, ch.ct).Some?
  }

  /** The entry shows the version. */
  predicate ShownAs(c: Store, ch: Change) {
    Get(c.rows, ch.entry) == Some(Row(ch.group, ch.seqNo, ch.kv, ch.ct, Decrypt(c.deks, ch.group, ch.entry, ch.ct),
                                      None, false, false, false))
  }

  lemma ShownBy(c: Store, ch: Change)
    requires Readable(c.deks, ch) && NothingInTheWay(c, ch)
    ensures ShownAs(ApplyChange(c, ch), ch)
  {
    OpenedChangeIsShown(c, ch);
    KeysKept(c, ch);
  }

  lemma OtherChange(c: Store, ch: Change, id: Id)
    requires ch.entry != id
    ensures var d := ApplyChange(c, ch); Get(d.rows, id) == Get(c.rows, id) && Get(d.waiting, id) == Get(c.waiting, id)
  {
    ApplyTouchesOne(c, ch);
  }

  lemma {:induction false} OtherChanges(c: Store, chs: seq<Change>, id: Id)
    requires forall i :: 0 <= i < |chs| ==> chs[i].entry != id
    ensures Get(ApplyChanges(c, chs).rows, id) == Get(c.rows, id) && ApplyChanges(c, chs).deks == c.deks
  {
    if chs != [] {
      var n := |chs| - 1;
      OtherChanges(c, chs[..n], id);
      OtherChange(ApplyChanges(c, chs[..n]), chs[n], id);
      KeysKept(ApplyChanges(c, chs[..n]), chs[n]);
    }
  }

  /** The one change of its entry in a batch is shown after the batch. */
  lemma {:induction false} ChangeShown(c: Store, chs: seq<Change>, k: nat)
    requires k < |chs| && Readable(c.deks, chs[k]) && NothingInTheWay(c, chs[k])
    requires forall i :: 0 <= i < |chs| && i != k ==> chs[i].entry != chs[k].entry
    ensures ShownAs(ApplyChanges(c, chs), chs[k]) && ApplyChanges(c, chs).deks == c.deks
    decreases |chs|
  {
    var n := |chs| - 1;
    var before := ApplyChanges(c, chs[..n]);
    KeysKept(before, chs[n]);
    if k < n {
      ChangeShown(c, chs[..n], k);
      OtherChange(before, chs[n], chs[k].entry);
    } else {
      OtherChanges(c, chs[..n], chs[k].entry);
      assert Get(before.rows, chs[k].entry) == Get(c.rows, chs[k].entry);
      ShownBy(before, chs[k]);
    }
  }

  lemma {:induction false} FlushElsewhere(c: Store, listed: map<Id, Waiting>, ids: seq<Id>, id: Id)
    requires (forall x :: x in ids ==> x in listed) && id !in ids
    ensures Get(Flush(c, listed, ids).rows, id) == Get(c.rows, id) && Flush(c, listed, ids).deks == c.deks
  {
    if ids != [] {
      var n := |ids| - 1;
      FlushElsewhere(c, listed, ids[..n], id);
      OtherChange(Flush(c, listed, ids[..n]), AsLive(ids[n], listed[ids[n]]), id);
      KeysKept(Flush(c, listed, ids[..n]), AsLive(ids[n], listed[ids[n]]));
    }
  }

  lemma {:induction false} WaitingShown(c: Store, listed: map<Id, Waiting>, ids: seq<Id>, id: Id)
    requires Listing(ids, listed) && id in ids
    requires Readable(c.deks, AsLive(id, listed[id])) && NothingInTheWay(c, AsLive(id, listed[id]))
    ensures ShownAs(Flush(c, listed, ids), AsLive(id, listed[id])) && Flush(c, listed, ids).deks == c.deks
    decreases |ids|
  {
    var n := |ids| - 1;
    var before := Flush(c, listed, ids[..n]);
    KeysKept(before, AsLive(ids[n], listed[ids[n]]));
    if ids[n] != id {
      WaitingShown(c, listed, ids[..n], id);
      OtherChange(before, AsLive(ids[n], listed[ids[n]]), id);
    } else {
      FlushElsewhere(c, listed, ids[..n], id);
      assert Get(before.rows, id) == Get(c.rows, id);
      ShownBy(before, AsLive(id, listed[id]));
    }
  }

  /**
    However the push at the end of a round goes, a pulled version that opens and has nothing waiting
    or of the user's in its way is shown.
   */
  lemma PulledIsShown(c: Store, s: State, user: Id, changes: seq<Change>, serverSeq: int, now: int, flushed: seq<Id>,
                      ids: seq<Id>, fate: Fate, d: Store, t: State, ok: bool, k: nat)
    requires FinishEnds(c, s, user, changes, serverSeq, now, flushed, ids, fate, d, t, ok)
    requires k < |changes| && Readable(c.deks, changes[k]) && NothingInTheWay(c, changes[k]) && changes[k].entry !in c.waiting
    requires forall i :: 0 <= i < |changes| && i != k ==> changes[i].entry != changes[k].entry
    ensures ShownAs(d, changes[k])
  {
    var flush := Flush(c, c.waiting, flushed);
    FlushElsewhere(c, c.waiting, flushed, changes[k].entry);
    assert Get(flush.rows, changes[k].entry) == Get(c.rows, changes[k].entry);
    ChangeShown(flush, changes, k);
    StillShown(ApplyChanges(flush, changes), s, user, ids, now, fate, d.(lastSeq := c.lastSeq), t, ok, changes[k]);
  }

  /** And so is a version that was waiting for a key which has come, if the round pulled nothing newer of its entry. */
  lemma WaitingIsShown(c: Store, s: State, user: Id, changes: seq<Change>, serverSeq: int, now: int, flushed: seq<Id>,
                       ids: seq<Id>, fate: Fate, d: Store, t: State, ok: bool, id: Id)
    requires FinishEnds(c, s, user, changes, serverSeq, now, flushed, ids, fate, d, t, ok)
    requires id in c.waiting && Readable(c.deks, AsLive(id, c.waiting[id])) && NothingInTheWay(c, AsLive(id, c.waiting[id]))
    requires forall i :: 0 <= i < |changes| ==> changes[i].entry != id
    ensures ShownAs(d, AsLive(id, c.waiting[id]))
  {
    var flush := Flush(c, c.waiting, flushed);
    assert id in (set x | x in flushed);
    WaitingShown(c, c.waiting, flushed, id);
    OtherChanges(flush, changes, id);
    StillShown(ApplyChanges(flush, changes), s, user, ids, now, fate, d.(lastSeq := c.lastSeq), t, ok,
               AsLive(id, c.waiting[id]));
  }

  lemma StillShown(c: Store, s: State, user: Id, ids: seq<Id>, now: int, fate: Fate, d: Store, t: State, ok: bool, ch: Change)
    requires ShownAs(c, ch) && PushEnds(c, s, user, ids, now, fate, d, t, ok)
    ensures ShownAs(d, ch)
  {
    CleanRowStays(c, s, user, ids, now, fate, d, t, ok, ch.entry);
    PushKeepsDeks(c, s, user, ids, now, fate, d, t, ok);
  }

  /** A dirty row that nothing pulled or waiting touches is sent by the round, and delivered if the server can take it. */
  lemma RoundDelivers(c: Store, s: State, user: Id, changes: seq<Change>, serverSeq: int, now: int, flushed: seq<Id>,
                      ids: seq<Id>, d: Store, t: State, id: Id)
    requires FinishEnds(c, s, user, changes, serverSeq, now, flushed, ids, Works, d, t, true)
    requires id in c.rows && c.rows[id].dirty && id !in c.waiting && forall i :: 0 <= i < |changes| ==> changes[i].entry != id
    requires c.rows[id].group !in ApplyChanges(Flush(c, c.waiting, flushed), changes).held
    requires var row := c.rows[id];
      && MayWrite(s, user, row.group) && WireSize(row.ct) <= MAX_CIPHERTEXT
      && row.kv == s.groups[row.group].kv && UpToDate(s, id, row.seqNo)
    ensures var row := c.rows[id];
      && id in t.entries && t.entries[id].ct == row.ct && t.entries[id].deleted == row.deleted
      && Get(d.rows, id) ==
           if row.deleted then None else Some(row.(dirty := false, base := None, seqNo := t.entries[id].seqNo))
  {
    var flush := Flush(c, c.waiting, flushed);
    FlushElsewhere(c, c.waiting, flushed, id);
    OtherChanges(flush, changes, id);
    assert Get(ApplyChanges(flush, changes).rows, id) == Get(c.rows, id);
    PushDelivers(ApplyChanges(flush, changes), s, user, ids, now, d.(lastSeq := c.lastSeq), t, id);
  }

  // ---- groups ----

  /**
    A group that is new to the client or comes back from the archive is pulled from the beginning
    before anything else; any other is not.
   */
  lemma GroupPulledWhenNeeded(c: Store, s: State, user: Id, st: GroupState, pub: string, now: int, tr: GroupTrace,
                              d: Store, t: State, ok: bool)
    requires GroupEnds(c, s, user, st, pub, now, tr, d, t, ok) && tr.pulled
    ensures var unknown := !st.archived && (st.id in c.states ==> c.states[st.id].archived);
      if unknown then
        && tr.pull.Works? && Answers(s, user, 0, None, map[st.id := 0], tr.a) && LearnAll(c.deks, tr.a.envelopes, pub).1
        && tr.full == ApplyChanges(c.(deks := LearnAll(c.deks, tr.a.envelopes, pub).0), tr.a.changes)
      else tr.full == c
  {
  }

  /** However a rekey attempt ends, the group is not held afterwards. */
  lemma AttemptReleases(c: Store, s: State, user: Id, st: GroupState, now: int, run: RekeyRun, d: Store, t: State, ok: bool)
    requires st.pending && HasKey(c, st.id, st.kv) && RotateEnds(c, s, user, st, now, run, d, t, ok)
    ensures st.id !in d.held
  {
  }

  /** A first key is made only by a client without any key of the group; one that lacks just this version stops. */
  lemma FirstKeyOnlyOnce(c: Store, s: State, user: Id, st: GroupState, run: WrapRun, d: Store, t: State, ok: bool)
    requires GiveEnds(c, s, user, st, run, d, t, ok) && !HasKey(c, st.id, st.kv)
    ensures (exists k :: Slot(st.id, k) in c.deks) ==> d == c && t == s && (ok <==> st.missing == [])
    ensures d == c || (st.missing != [] && d == c.(deks := c.deks[Slot(st.id, st.kv) := run.made]))
  {
  }

  /** A rekey attempt whose upload is refused or lost changes neither the server nor any row. */
  lemma FailedRekeyKeepsRows(c: Store, s: State, user: Id, st: GroupState, now: int, run: RekeyRun, d: Store, t: State, ok: bool)
    requires st.pending && HasKey(c, st.id, st.kv) && RotateEnds(c, s, user, st, now, run, d, t, ok)
    requires run.fates.upload.Lost? || !run.fates.listed ||
             UploadKeys(s, user, st.id, st.kv + 1, Wrappings(st.active, ActiveKeys(s), run.made)).1 != 0
    ensures t == s && d == c.(deks := c.deks[Slot(st.id, st.kv + 1) := run.made], held := c.held - {st.id})
  {
    UploadAcceptedIff(s, user, st.id, st.kv + 1, Wrappings(st.active, ActiveKeys(s), run.made));
    assert c.held + {st.id} - {st.id} == c.held - {st.id};
  }

  /** A round stopped by an envelope that does not open keeps the keys of those before it, and changes nothing else. */
  lemma StoppedAtEnvelope(c: Store, s: State, user: Id, pub: string, now: int, tr: RoundTrace, d: Store, t: State, ok: bool)
    requires RoundEnds(c, s, user, pub, now, tr, d, t, ok) && tr.pull.Works? && Opened(tr.a.envelopes, pub) < |tr.a.envelopes|
    ensures !ok && t == s && d == c.(deks := d.deks)
    ensures var envs := tr.a.envelopes;
      LastWins(d.deks, envs, Opened(envs, pub), pub) && OthersStay(c.deks, d.deks, envs, Opened(envs, pub))
  {
    LearnsLast(c.deks, tr.a.envelopes, pub);
  }

  /** What the pull said of the group is noted, for edits to seal under, whatever became of wrapping and rekeying. */
  lemma GroupIsNoted(c: Store, s: State, user: Id, st: GroupState, pub: string, now: int, tr: GroupTrace,
                     d: Store, t: State, ok: bool)
    requires GroupEnds(c, s, user, st, pub, now, tr, d, t, ok) && tr.pulled
    ensures d.states == tr.full.states[st.id := GroupNote(st.kv, st.archived)]
  {
    if !st.archived && tr.wrapped {
      RotationNotes(tr.given, tr.mid, user, st, now, tr.rekey, d, t, ok);
    }
  }

  lemma RotationNotes(c: Store, s: State, user: Id, st: GroupState, now: int, run: RekeyRun, d: Store, t: State, ok: bool)
    requires RotateEnds(c, s, user, st, now, run, d, t, ok)
    ensures d.states == c.states
  {
    if st.pending && HasKey(c, st.id, st.kv) {
      TryNotes(Keyed(c, st.id, st.kv + 1, run.made), s, user, st, now, run, t, ok);
    }
  }

  lemma TryNotes(c: Store, s: State, user: Id, st: GroupState, now: int, run: RekeyRun, t: State, ok: bool)
    requires TryEnds(c, s, user, st.id, st.kv + 1, st.active, run.made, run.fates, now, run.ids, run.sent, run.done, t, ok)
    ensures run.done.states == c.states
  {
    if run.done != c {
      var upload := UploadKeys(s, user, st.id, st.kv + 1, Wrappings(st.active, ActiveKeys(s), run.made));
      ResealNotes(c, st.id, st.kv + 1, run.ids);
      PushNotes(Reencrypt(c, st.id, st.kv + 1, run.ids), upload.0, user, run.sent, now, run.fates.push, run.done, t, ok);
    }
  }

  lemma {:induction false} ResealNotes(c: Store, g: Id, newKV: int, ids: seq<Id>)
    ensures Reencrypt(c, g, newKV, ids).states == c.states
  {
    if ids != [] { ResealNotes(c, g, newKV, ids[..|ids| - 1]); }
  }

  lemma PushNotes(c: Store, s: State, user: Id, ids: seq<Id>, now: int, fate: Fate, d: Store, t: State, ok: bool)
    requires PushEnds(c, s, user, ids, now, fate, d, t, ok)
    ensures d.states == c.states
  {
    AnswersCount(s, user, Outgoing(c, ids), now);
    AnswersNote(c, Outgoing(c, ids), PushAll(s, user, Outgoing(c, ids), now).1);
  }

  lemma AnswerNotes(c: Store, m: Mutation, r: PushResult)
    ensures HandleResult(c, m, r).states == c.states
  {
  }

  lemma {:induction false} AnswersNote(c: Store, ms: seq<Mutation>, rs: seq<PushResult>)
    requires |ms| == |rs|
    ensures HandleResults(c, ms, rs).states == c.states
  {
    if ms != [] {
      var n := |ms| - 1;
      AnswersNote(c, ms[..n], rs[..n]);
      AnswerNotes(HandleResults(c, ms[..n], rs[..n]), ms[n], rs[n]);
    }
  }
}
