/**
  How the networked parts of a round can end, exactly, for client and server, and the run of the
  world each ending amounts to.
 */
module RoundSpec {
  import opened Base
  import opened Wire
  import opened Server
  import opened ServerInvariant
  import opened ServerHistory
  import opened Pulling
  import opened Client
  import opened KeyDelivery
  import opened Agreement
  import opened Cursor
  import opened SyncService
  import opened WorldRuns

  /** What becomes of a request: answered, lost on the way, or handled with its answer lost. */
  datatype Fate = Works | Lost | AnswerLost

  /** The listing of users, the upload and the push of one rekey attempt. */
  datatype RekeyFates = RekeyFates(listed: bool, upload: Fate, push: Fate)

  /** What the engine does not decide: the fate of each request and each fresh key. */
  class Outside {
    var fates: seq<Fate>
    var keys: seq<Key>

    constructor (fates: seq<Fate>, keys: seq<Key>)
      ensures this.fates == fates && this.keys == keys
    {
      this.fates, this.keys := fates, keys;
    }

    method NextFate() returns (fate: Fate)
      modifies this
      ensures fate == (if old(fates) == [] then Works else old(fates)[0]) && keys == old(keys)
    {
      if fates == [] { return Works; }
      fate := fates[0];
      fates := fates[1..];
    }

    method Reachable() returns (r: bool)
      modifies this
      ensures keys == old(keys)
    {
      var fate := NextFate();
      return fate.Works?;
    }

    method NewKey() returns (key: Key)
      modifies this
      ensures key == (if old(keys) == [] then 0 else old(keys)[0]) && fates == old(fates)
    {
      if keys == [] { return 0; }
      key := keys[0];
      keys := keys[1..];
    }
  }

  // ---- envelopes ----

  function Wrappings(members: seq<Id>, keys: map<Id, string>, dek: Key): seq<Upload> {
    if members == [] then []
    else
      var last, rest := members[|members| - 1], Wrappings(members[..|members| - 1], keys, dek);
      if last in keys then rest + [Wire.Upload(last, Wrapped.Wrapped(keys[last], dek))] else rest
  }

  /** If every member's key is known, each is wrapped for once, in order. */
  lemma {:induction false} WrapsEveryone(members: seq<Id>, keys: map<Id, string>, dek: Key)
    requires forall u :: u in members ==> u in keys
    ensures |Wrappings(members, keys, dek)| == |members|
    ensures forall i :: 0 <= i < |members| ==>
      Wrappings(members, keys, dek)[i] == Wire.Upload(members[i], Wrapped.Wrapped(keys[members[i]], dek))
  {
    if members != [] { WrapsEveryone(members[..|members| - 1], keys, dek); }
  }

  /** The keys after the envelopes were opened one after the other, and whether all of them opened. */
  function LearnAll(deks: map<Slot, Key>, envs: seq<Envelope>, pub: string): (map<Slot, Key>, bool)
    decreases |envs|
  {
    if envs == [] then (deks, true)
    else
      var key := Unwrap(pub, envs[0].wrapped);
      if key.None? then (deks, false)
      else LearnAll(deks[Slot(envs[0].group, envs[0].kv) := key.value], envs[1..], pub)
  }

  /** Every key comes out of one of the envelopes. */
  ghost predicate OutOf(keys: map<Slot, Key>, envs: seq<Envelope>, pub: string) {
    forall s :: s in keys ==> exists e :: e in envs && Slot(e.group, e.kv) == s && Unwrap(pub, e.wrapped) == Some(keys[s])
  }

  lemma FirstOpens(envs: seq<Envelope>, pub: string, rest: map<Slot, Key>)
    requires envs != [] && Unwrap(pub, envs[0].wrapped).Some? && OutOf(rest, envs[1..], pub)
    ensures OutOf(map[Slot(envs[0].group, envs[0].kv) := Unwrap(pub, envs[0].wrapped).value] + rest, envs, pub)
  {
    var e := envs[0];
    var keys := map[Slot(e.group, e.kv) := Unwrap(pub, e.wrapped).value] + rest;
    forall s | s in keys
      ensures exists f :: f in envs && Slot(f.group, f.kv) == s && Unwrap(pub, f.wrapped) == Some(keys[s])
    {
      if s in rest {
        var f :| f in envs[1..] && Slot(f.group, f.kv) == s && Unwrap(pub, f.wrapped) == Some(rest[s]);
        assert f in envs;
      } else {
        assert e in envs && Slot(e.group, e.kv) == s;
      }
    }
  }

  lemma AddFirst(deks: map<Slot, Key>, s: Slot, key: Key, rest: map<Slot, Key>)
    ensures deks[s := key] == deks + map[s := key]
    ensures deks + map[s := key] + rest == deks + (map[s := key] + rest)
  {
  }

  /** What is learned depends on the envelopes alone, and comes out of them. */
  lemma {:induction false} Learned(deks: map<Slot, Key>, envs: seq<Envelope>, pub: string)
    ensures var keys := LearnAll(map[], envs, pub).0;
      && LearnAll(deks, envs, pub) == (deks + keys, LearnAll(map[], envs, pub).1)
      && OutOf(keys, envs, pub)
    decreases |envs|
  {
    if envs == [] || Unwrap(pub, envs[0].wrapped).None? {
      assert deks + map[] == deks;
    } else {
      var e := envs[0];
      var one := map[Slot(e.group, e.kv) := Unwrap(pub, e.wrapped).value];
      Learned(deks + one, envs[1..], pub);
      Learned(one, envs[1..], pub);
      var rest := LearnAll(map[], envs[1..], pub).0;
      AddFirst(deks, Slot(e.group, e.kv), Unwrap(pub, e.wrapped).value, rest);
      AddFirst(map[], Slot(e.group, e.kv), Unwrap(pub, e.wrapped).value, rest);
      FirstOpens(envs, pub, rest);
    }
  }

  /** An ordinary pull teaches the client only keys of versions above those it declared. */
  lemma PullTeachesDelivered(s: State, user: Id, since: int, declared: map<Id, int>, a: PullAnswer, pub: string)
    requires Answers(s, user, since, None, declared, a)
    ensures forall k :: k in LearnAll(map[], a.envelopes, pub).0 ==>
      EnvKey(k.group, k.kv, user) in Delivered(s, user, declared)
  {
    Learned(map[], a.envelopes, pub);
  }

  lemma EnvelopeMoves(w: World, envs: seq<Envelope>, pub: string) returns (moves: seq<Move>)
    ensures Reaches(w, moves, w.(client := w.client.(deks := LearnAll(w.client.deks, envs, pub).0)))
  {
    Learned(w.client.deks, envs, pub);
    var move := Learn(LearnAll(map[], envs, pub).0);
    OneMove(w, move);
    moves := [move];
  }

  // ---- one push ----

  ghost predicate PushEnds(c: Store, s: State, user: Id, ids: seq<Id>, now: int, fate: Fate, d: Store, t: State, ok: bool) {
    && Listing(ids, c.rows) && c.rows.Keys == (set id | id in ids)
    && var ms := Outgoing(c, ids);
    var answer := PushAll(s, user, ms, now);
    if ms == [] then ok && d == c && t == s
    else match fate
      case Works => ok && t == answer.0 && |answer.1| == |ms| && d == HandleResults(c, ms, answer.1)
      case Lost => !ok && t == s && d == c
      case AnswerLost => !ok && t == answer.0 && d == c
  }

  lemma PushMoves(w: World, user: Id, ids: seq<Id>, now: int, fate: Fate, d: Store, t: State, ok: bool)
    returns (moves: seq<Move>)
    requires Inv(w.server) && PushEnds(w.client, w.server, user, ids, now, fate, d, t, ok)
    ensures Reaches(w, moves, w.(server := t, client := d)) && Inv(t)
  {
    var ms := Outgoing(w.client, ids);
    BatchInv(w.server, user, ms, now);
    if ms == [] || fate.Lost? {
      NoMove(w);
      moves := [];
    } else if fate.Works? {
      AnsweredRun(w, user, ids, now);
      moves := [PushDirty(user, ids, NoGaps(|ms|), now)];
    } else {
      UnansweredRun(w, user, ms, now);
      moves := Unanswered(user, ms, now);
    }
  }

  lemma PushKeepsInv(c: Store, s: State, user: Id, ids: seq<Id>, now: int, fate: Fate, d: Store, t: State, ok: bool)
    requires Inv(s) && PushEnds(c, s, user, ids, now, fate, d, t, ok)
    ensures Inv(t)
  {
    BatchInv(s, user, Outgoing(c, ids), now);
  }

  // ---- applying what was pulled ----

  lemma ApplyMoves(start: World, moves: seq<Move>, w: World, v: World)
    requires Reaches(start, moves, w) && v == w.(client := ApplyChanges(w.client, w.inbox), inbox := [])
    ensures Reaches(start, moves + Takes(|w.inbox|), v)
  {
    TakesRun(w, |w.inbox|);
    TakeAll(w.inbox, |w.inbox|);
    assert w.inbox[|w.inbox|..] == [];
    Then(start, moves, w, Takes(|w.inbox|), v);
  }

  // ---- a full pull ----

  ghost predicate FullEnds(c: Store, s: State, user: Id, g: Id, fate: Fate, pub: string, a: PullAnswer, d: Store, ok: bool) {
    if !fate.Works? then d == c && !ok
    else
      && Answers(s, user, 0, None, map[g := 0], a)
      && var (deks, all) := LearnAll(c.deks, a.envelopes, pub);
      ok == all && d == if all then ApplyChanges(c.(deks := deks), a.changes) else c.(deks := deks)
  }

  lemma FullMoves(w: World, user: Id, g: Id, fate: Fate, pub: string, a: PullAnswer, d: Store, ok: bool)
    returns (moves: seq<Move>)
    requires Inv(w.server) && FullEnds(w.client, w.server, user, g, fate, pub, a, d, ok)
    ensures Reaches(w, moves, w.(client := d))
  {
    if !fate.Works? {
      NoMove(w);
      moves := [];
    } else {
      moves := EnvelopeMoves(w, a.envelopes, pub);
      if ok {
        forall ch | ch in a.changes ensures Genuine(w.server.log, ch) { PulledGenuine(w.server, user, 0, ch); }
        var v := w.(client := w.client.(deks := LearnAll(w.client.deks, a.envelopes, pub).0));
        ReceivesRun(v, a.changes);
        Then(w, moves, v, Receives(a.changes), w.(client := d));
        moves := moves + Receives(a.changes);
      }
    }
  }

  // ---- wrapping for missing members ----

  ghost predicate WrapEnds(c: Store, s: State, user: Id, g: Id, kv: int, missing: seq<Id>, made: Key, listed: bool,
                           fate: Fate, d: Store, t: State, ok: bool)
  {
    if !listed || (!HasKey(c, g, kv) && exists k :: Slot(g, k) in c.deks) then !ok && d == c && t == s
    else
      && d == (if HasKey(c, g, kv) then c else SetDEK(c, g, kv, made))
      && var ups := Wrappings(missing, ActiveKeys(s), d.deks[Slot(g, kv)]);
      if ups == [] then ok && t == s
      else if fate.Lost? then !ok && t == s
      else t == UploadKeys(s, user, g, kv, ups).0 && (ok <==> fate.Works? && UploadKeys(s, user, g, kv, ups).1 == 0)
  }

  lemma WrapMoves(w: World, user: Id, g: Id, kv: int, missing: seq<Id>, made: Key, listed: bool, fate: Fate, d: Store,
                  t: State, ok: bool)
    returns (moves: seq<Move>)
    requires Inv(w.server) && WrapEnds(w.client, w.server, user, g, kv, missing, made, listed, fate, d, t, ok)
    ensures Reaches(w, moves, w.(server := t, client := d)) && Inv(t)
  {
    var v := w.(client := d);
    if HasKey(w.client, g, kv) || !listed || exists k :: Slot(g, k) in w.client.deks {
      NoMove(w);
      moves := [];
    } else {
      moves := KeyMoves(w, g, kv, made);
    }
    if t != w.server {
      var ups := Wrappings(missing, ActiveKeys(w.server), d.deks[Slot(g, kv)]);
      var upload := Step.Upload(user, g, kv, ups);
      StepKeepsInv(w.server, upload);
      ThenMove(w, moves, v, Others(upload));
      moves := moves + [Others(upload)];
    }
  }

  lemma KeyMoves(w: World, g: Id, kv: int, key: Key) returns (moves: seq<Move>)
    ensures Reaches(w, moves, w.(client := SetDEK(w.client, g, kv, key)))
  {
    var learn := Learn(map[Slot(g, kv) := key]);
    assert w.client.deks + map[Slot(g, kv) := key] == w.client.deks[Slot(g, kv) := key];
    OneMove(w, learn);
    moves := [learn];
  }

  // ---- a rekey attempt ----

  /** Between storing the new key and releasing the group; `c` already has the one and holds the other. */
  ghost predicate TryEnds(c: Store, s: State, user: Id, g: Id, newKV: int, active: seq<Id>, newKey: Key, fates: RekeyFates,
                          now: int, ids: seq<Id>, sent: seq<Id>, d: Store, t: State, ok: bool)
  {
    var ups := Wrappings(active, ActiveKeys(s), newKey);
    var upload := UploadKeys(s, user, g, newKV, ups);
    if !fates.listed then !ok && d == c && t == s
    else if ups == [] || fates.upload.Lost? then ok && d == c && t == s
    else if upload.1 != 0 || fates.upload.AnswerLost? then ok && d == c && t == upload.0
    else
      && Listing(ids, c.rows) && c.rows.Keys == (set id | id in ids)
      && PushEnds(Reencrypt(c, g, newKV, ids), upload.0, user, sent, now, fates.push, d, t, ok)
  }

  /** `done` is the client just before the group is released. */
  ghost predicate RekeyEnds(c: Store, s: State, user: Id, g: Id, kv: int, active: seq<Id>, newKey: Key, fates: RekeyFates,
                            now: int, ids: seq<Id>, sent: seq<Id>, done: Store, d: Store, t: State, ok: bool)
  {
    if !HasKey(c, g, kv) then ok && d == c && t == s
    else
      && d == done.(held := done.held - {g})
      && TryEnds(Keyed(c, g, kv + 1, newKey), s, user, g, kv + 1, active, newKey, fates, now, ids, sent, done, t, ok)
  }

  /** The new key is stored and the group held. */
  function Keyed(c: Store, g: Id, kv: int, key: Key): Store {
    SetDEK(c, g, kv, key).(held := c.held + {g})
  }

  lemma KeyedMoves(w: World, g: Id, kv: int, key: Key) returns (moves: seq<Move>)
    ensures Reaches(w, moves, w.(client := Keyed(w.client, g, kv, key)))
  {
    moves := KeyMoves(w, g, kv, key);
    ThenMove(w, moves, w.(client := SetDEK(w.client, g, kv, key)), Hold(w.client.held + {g}));
    moves := moves + [Hold(w.client.held + {g})];
  }

  lemma RekeyMoves(w: World, user: Id, g: Id, kv: int, active: seq<Id>, newKey: Key, fates: RekeyFates, now: int,
                   ids: seq<Id>, sent: seq<Id>, done: Store, d: Store, t: State, ok: bool)
    returns (moves: seq<Move>)
    requires Inv(w.server)
    requires RekeyEnds(w.client, w.server, user, g, kv, active, newKey, fates, now, ids, sent, done, d, t, ok)
    ensures Reaches(w, moves, w.(server := t, client := d)) && Inv(t)
  {
    if !HasKey(w.client, g, kv) {
      NoMove(w);
      moves := [];
    } else {
      moves := KeyedMoves(w, g, kv + 1, newKey);
      var v := w.(client := Keyed(w.client, g, kv + 1, newKey));
      var ups := Wrappings(active, ActiveKeys(w.server), newKey);
      if fates.listed && ups != [] && !fates.upload.Lost? {
        var more := UploadMoves(v, user, g, kv + 1, ups, fates, now, ids, sent, done, t, ok);
        Then(w, moves, v, more, v.(server := t, client := done));
        moves := moves + more;
      }
      ThenMove(w, moves, v.(server := t, client := done), Hold(d.held));
      moves := moves + [Hold(d.held)];
    }
  }

  lemma UploadMoves(w: World, user: Id, g: Id, newKV: int, ups: seq<Wire.Upload>, fates: RekeyFates, now: int,
                    ids: seq<Id>, sent: seq<Id>, done: Store, t: State, ok: bool)
    returns (moves: seq<Move>)
    requires Inv(w.server)
    requires var upload := UploadKeys(w.server, user, g, newKV, ups);
      if upload.1 != 0 || fates.upload.AnswerLost? then done == w.client && t == upload.0
      else
        && Listing(ids, w.client.rows)
        && PushEnds(Reencrypt(w.client, g, newKV, ids), upload.0, user, sent, now, fates.push, done, t, ok)
    ensures Reaches(w, moves, w.(server := t, client := done)) && Inv(t)
  {
    var upload := Step.Upload(user, g, newKV, ups);
    StepKeepsInv(w.server, upload);
    OneMove(w, Others(upload));
    moves := [Others(upload)];
    if UploadKeys(w.server, user, g, newKV, ups).1 == 0 && !fates.upload.AnswerLost? {
      var v := w.(server := UploadKeys(w.server, user, g, newKV, ups).0);
      var more := ResealMoves(v, user, g, newKV, now, fates.push, ids, sent, done, t, ok);
      Then(w, moves, v, more, v.(server := t, client := done));
      moves := moves + more;
    }
  }

  lemma ResealMoves(w: World, user: Id, g: Id, newKV: int, now: int, fate: Fate,
                    ids: seq<Id>, sent: seq<Id>, done: Store, t: State, ok: bool)
    returns (moves: seq<Move>)
    requires Inv(w.server) && Listing(ids, w.client.rows)
    requires PushEnds(Reencrypt(w.client, g, newKV, ids), w.server, user, sent, now, fate, done, t, ok)
    ensures Reaches(w, moves, w.(server := t, client := done)) && Inv(t)
  {
    var v := w.(client := Reencrypt(w.client, g, newKV, ids));
    OneMove(w, Reseal(g, newKV, ids));
    var more := PushMoves(v, user, sent, now, fate, done, t, ok);
    Then(w, [Reseal(g, newKV, ids)], v, more, w.(server := t, client := done));
    moves := [Reseal(g, newKV, ids)] + more;
  }

  // ---- the coordination of one group ----

  /** A group seen for the first time, or one that left the archive, is pulled from the beginning. */
  predicate NeedsFull(states: map<Id, GroupNote>, st: GroupState) {
    !st.archived && (st.id !in states || states[st.id].archived)
  }

  ghost predicate RefreshEnds(c: Store, s: State, user: Id, st: GroupState, pub: string, fate: Fate, a: PullAnswer,
                              d: Store, ok: bool)
  {
    if NeedsFull(c.states, st) then FullEnds(c, s, user, st.id, fate, pub, a, d, ok) else ok && d == c
  }

  /** What a wrapping met: the key made in case there is none, the listing of users, the upload. */
  datatype WrapRun = WrapRun(made: Key, listed: bool, fate: Fate)

  ghost predicate GiveEnds(c: Store, s: State, user: Id, st: GroupState, run: WrapRun, d: Store, t: State, ok: bool) {
    if st.missing == [] then ok && d == c && t == s
    else WrapEnds(c, s, user, st.id, st.kv, st.missing, run.made, run.listed, run.fate, d, t, ok)
  }

  /** What a rekey attempt met: the new key, its requests, the rows rewritten and sent, the client before the release. */
  datatype RekeyRun = RekeyRun(made: Key, fates: RekeyFates, ids: seq<Id>, sent: seq<Id>, done: Store)

  ghost predicate RotateEnds(c: Store, s: State, user: Id, st: GroupState, now: int, run: RekeyRun, d: Store, t: State,
                             ok: bool)
  {
    if !st.pending then ok && d == c && t == s
    else RekeyEnds(c, s, user, st.id, st.kv, st.active, run.made, run.fates, now, run.ids, run.sent, run.done, d, t, ok)
  }

  function Noted(c: Store, st: GroupState): Store {
    c.(states := c.states[st.id := GroupNote(st.kv, st.archived)])
  }

  /** The full pull and the client after it; the wrapping with client and server after it; the rekey attempt. */
  datatype GroupTrace = GroupTrace(pull: Fate, a: PullAnswer, full: Store, pulled: bool,
                                   wrap: WrapRun, given: Store, mid: State, wrapped: bool, rekey: RekeyRun)

  ghost predicate GroupEnds(c: Store, s: State, user: Id, st: GroupState, pub: string, now: int, tr: GroupTrace,
                            d: Store, t: State, ok: bool)
  {
    && RefreshEnds(c, s, user, st, pub, tr.pull, tr.a, tr.full, tr.pulled)
    && if !tr.pulled then !ok && d == tr.full && t == s
       else if st.archived then ok && d == Noted(tr.full, st) && t == s
       else
         && GiveEnds(Noted(tr.full, st), s, user, st, tr.wrap, tr.given, tr.mid, tr.wrapped)
         && if !tr.wrapped then !ok && d == tr.given && t == tr.mid
            else RotateEnds(tr.given, tr.mid, user, st, now, tr.rekey, d, t, ok)
  }

  lemma RefreshMoves(w: World, user: Id, st: GroupState, pub: string, fate: Fate, a: PullAnswer, d: Store, ok: bool)
    returns (moves: seq<Move>)
    requires Inv(w.server) && RefreshEnds(w.client, w.server, user, st, pub, fate, a, d, ok)
    ensures Reaches(w, moves, w.(client := d))
  {
    if NeedsFull(w.client.states, st) {
      moves := FullMoves(w, user, st.id, fate, pub, a, d, ok);
    } else {
      NoMove(w);
      moves := [];
    }
  }

  lemma GiveMoves(w: World, user: Id, st: GroupState, run: WrapRun, d: Store, t: State, ok: bool)
    returns (moves: seq<Move>)
    requires Inv(w.server) && GiveEnds(w.client, w.server, user, st, run, d, t, ok)
    ensures Reaches(w, moves, w.(server := t, client := d)) && Inv(t)
  {
    if st.missing == [] {
      NoMove(w);
      moves := [];
    } else {
      moves := WrapMoves(w, user, st.id, st.kv, st.missing, run.made, run.listed, run.fate, d, t, ok);
    }
  }

  lemma RotateMoves(w: World, user: Id, st: GroupState, now: int, run: RekeyRun, d: Store, t: State, ok: bool)
    returns (moves: seq<Move>)
    requires Inv(w.server) && RotateEnds(w.client, w.server, user, st, now, run, d, t, ok)
    ensures Reaches(w, moves, w.(server := t, client := d)) && Inv(t)
  {
    if !st.pending {
      NoMove(w);
      moves := [];
    } else {
      moves := RekeyMoves(w, user, st.id, st.kv, st.active, run.made, run.fates, now, run.ids, run.sent, run.done, d, t, ok);
    }
  }

  lemma GroupMoves(w: World, user: Id, st: GroupState, pub: string, now: int, tr: GroupTrace, d: Store, t: State,
                   ok: bool)
    returns (moves: seq<Move>)
    requires Inv(w.server) && GroupEnds(w.client, w.server, user, st, pub, now, tr, d, t, ok)
    ensures Reaches(w, moves, w.(server := t, client := d)) && Inv(t)
  {
    moves := RefreshMoves(w, user, st, pub, tr.pull, tr.a, tr.full, tr.pulled);
    if tr.pulled {
      var v := w.(client := tr.full);
      ThenMove(w, moves, v, Note(st.id, GroupNote(st.kv, st.archived)));
      moves := moves + [Note(st.id, GroupNote(st.kv, st.archived))];
      if !st.archived {
        var more := CoordinateMoves(v.(client := Noted(tr.full, st)), user, st, pub, now, tr, d, t, ok);
        Then(w, moves, v.(client := Noted(tr.full, st)), more, w.(server := t, client := d));
        moves := moves + more;
      }
    }
  }

  lemma CoordinateMoves(w: World, user: Id, st: GroupState, pub: string, now: int, tr: GroupTrace, d: Store, t: State,
                        ok: bool)
    returns (moves: seq<Move>)
    requires Inv(w.server) && GiveEnds(w.client, w.server, user, st, tr.wrap, tr.given, tr.mid, tr.wrapped)
    requires if !tr.wrapped then d == tr.given && t == tr.mid
             else RotateEnds(tr.given, tr.mid, user, st, now, tr.rekey, d, t, ok)
    ensures Reaches(w, moves, w.(server := t, client := d)) && Inv(t)
  {
    moves := GiveMoves(w, user, st, tr.wrap, tr.given, tr.mid, tr.wrapped);
    if tr.wrapped {
      var v := w.(server := tr.mid, client := tr.given);
      var more := RotateMoves(v, user, st, now, tr.rekey, d, t, ok);
      Then(w, moves, v, more, w.(server := t, client := d));
      moves := moves + more;
    }
  }

  /** The groups handled so far, each with client and server before it. */
  datatype GroupsTrace = Start | After(before: GroupsTrace, store: Store, server: State, step: GroupTrace)

  function Handled(tr: GroupsTrace): nat {
    if tr.Start? then 0 else Handled(tr.before) + 1
  }

  ghost predicate Coordinated(c: Store, s: State, user: Id, sts: seq<GroupState>, pub: string, now: int, tr: GroupsTrace,
                              d: Store, t: State, ok: bool)
    decreases tr
  {
    match tr
    case Start => ok && d == c && t == s
    case After(before, store, server, step) =>
      && Handled(before) < |sts|
      && Coordinated(c, s, user, sts, pub, now, before, store, server, true)
      && GroupEnds(store, server, user, sts[Handled(before)], pub, now, step, d, t, ok)
  }

  /** One group after the other, up to the first that fails. */
  ghost predicate GroupsEnd(c: Store, s: State, user: Id, sts: seq<GroupState>, pub: string, now: int, tr: GroupsTrace,
                            d: Store, t: State, ok: bool)
  {
    && Coordinated(c, s, user, sts, pub, now, tr, d, t, ok)
    && (ok ==> Handled(tr) == |sts|) && d.lastSeq == c.lastSeq
  }

  lemma OneGroupMore(c: Store, s: State, user: Id, sts: seq<GroupState>, pub: string, now: int, tr: GroupsTrace,
                     store: Store, server: State, step: GroupTrace, d: Store, t: State, ok: bool)
    requires Coordinated(c, s, user, sts, pub, now, tr, store, server, true) && Handled(tr) < |sts|
    requires GroupEnds(store, server, user, sts[Handled(tr)], pub, now, step, d, t, ok) && Inv(server)
    ensures Coordinated(c, s, user, sts, pub, now, After(tr, store, server, step), d, t, ok) && Inv(t)
  {
    var moves := GroupMoves(World(server, store, [], 0), user, sts[Handled(tr)], pub, now, step, d, t, ok);
  }

  lemma {:induction false} GroupsMoves(w: World, user: Id, sts: seq<GroupState>, pub: string, now: int, tr: GroupsTrace,
                                       d: Store, t: State, ok: bool)
    returns (moves: seq<Move>)
    requires Inv(w.server) && Coordinated(w.client, w.server, user, sts, pub, now, tr, d, t, ok)
    ensures Reaches(w, moves, w.(server := t, client := d)) && Inv(t)
    decreases tr
  {
    if tr.Start? {
      NoMove(w);
      moves := [];
    } else {
      moves := GroupsMoves(w, user, sts, pub, now, tr.before, tr.store, tr.server, true);
      var v := w.(server := tr.server, client := tr.store);
      var more := GroupMoves(v, user, sts[Handled(tr.before)], pub, now, tr.step, d, t, ok);
      Then(w, moves, v, more, w.(server := t, client := d));
      moves := moves + more;
    }
  }

  // ---- one round ----

  /** Waiting entries, changes, push, cursor; a failed push leaves the cursor. */
  ghost predicate FinishEnds(c: Store, s: State, user: Id, changes: seq<Change>, serverSeq: int, now: int,
                             flushed: seq<Id>, ids: seq<Id>, fate: Fate, d: Store, t: State, ok: bool)
  {
    && Listing(flushed, c.waiting) && c.waiting.Keys == (set id | id in flushed)
    && PushEnds(ApplyChanges(Flush(c, c.waiting, flushed), changes), s, user, ids, now, fate,
                d.(lastSeq := c.lastSeq), t, ok)
    && d.lastSeq == if ok then NextCursor(c.lastSeq, changes, serverSeq) else c.lastSeq
  }

  /** What a round met: the answers of the network and the intermediate states. */
  datatype RoundTrace = RoundTrace(declared: map<Id, int>, pull: Fate, a: PullAnswer, groups: GroupsTrace,
                                   grouped: Store, mid: State, coordinated: bool, flushed: seq<Id>, ids: seq<Id>,
                                   push: Fate)

  /** One round: pull, envelopes, groups, waiting entries, changes, push, cursor.  It may fail at every request. */
  ghost predicate RoundEnds(c: Store, s: State, user: Id, pub: string, now: int, tr: RoundTrace, d: Store, t: State,
                            ok: bool)
  {
    && Declares(c.deks, tr.declared)
    && if !tr.pull.Works? then !ok && d == c && t == s
       else
         && Answers(s, user, c.lastSeq, None, tr.declared, tr.a)
         && var (deks, all) := LearnAll(c.deks, tr.a.envelopes, pub);
         var learned := c.(deks := deks);
         if !all then !ok && d == learned && t == s
         else
           && GroupsEnd(learned, s, user, tr.a.groups, pub, now, tr.groups, tr.grouped, tr.mid, tr.coordinated)
           && if !tr.coordinated then !ok && d == tr.grouped && t == tr.mid
              else FinishEnds(tr.grouped, tr.mid, user, tr.a.changes, tr.a.serverSeq, now, tr.flushed, tr.ids, tr.push,
                              d, t, ok)
  }

  lemma FinishMoves(w: World, user: Id, serverSeq: int, now: int, flushed: seq<Id>, ids: seq<Id>, fate: Fate, d: Store,
                    t: State, ok: bool)
    returns (moves: seq<Move>)
    requires Inv(w.server) && w.target == NextCursor(w.client.lastSeq, w.inbox, serverSeq)
    requires FinishEnds(w.client, w.server, user, w.inbox, serverSeq, now, flushed, ids, fate, d, t, ok)
    ensures Reaches(w, moves, World(t, d, [], w.target)) && Inv(t)
  {
    var flush := w.(client := Flush(w.client, w.client.waiting, flushed));
    var applied := World(w.server, ApplyChanges(flush.client, w.inbox), [], w.target);
    var pushed := World(t, d.(lastSeq := w.client.lastSeq), [], w.target);
    OneMove(w, FlushWaiting(flushed));
    ApplyMoves(w, [FlushWaiting(flushed)], flush, applied);
    moves := [FlushWaiting(flushed)] + Takes(|w.inbox|);
    var more := PushMoves(applied, user, ids, now, fate, pushed.client, t, ok);
    Then(w, moves, applied, more, pushed);
    moves := moves + more;
    if ok {
      ThenMove(w, moves, pushed, Move.Commit);
      moves := moves + [Move.Commit];
    }
  }

  /** Whatever a round meets, client and server move as some run of the world does. */
  lemma RoundMoves(c: Store, s: State, user: Id, pub: string, now: int, tr: RoundTrace, d: Store, t: State, ok: bool)
    returns (moves: seq<Move>, inbox: seq<Change>, target: int)
    requires Inv(s) && RoundEnds(c, s, user, pub, now, tr, d, t, ok)
    ensures Reaches(World(s, c, [], 0), moves, World(t, d, inbox, target)) && Inv(t)
  {
    var w := World(s, c, [], 0);
    if !tr.pull.Works? {
      NoMove(w);
      return [], [], 0;
    }
    OneMove(w, Fetch(user));
    var fetched := Next(w, Fetch(user));
    inbox, target := fetched.inbox, fetched.target;
    var more := EnvelopeMoves(fetched, tr.a.envelopes, pub);
    var v := fetched.(client := c.(deks := LearnAll(c.deks, tr.a.envelopes, pub).0));
    Then(w, [Fetch(user)], fetched, more, v);
    moves := [Fetch(user)] + more;
    if LearnAll(c.deks, tr.a.envelopes, pub).1 {
      more, inbox := LaterMoves(v, user, pub, now, tr, d, t, ok);
      Then(w, moves, v, more, World(t, d, inbox, target));
      moves := moves + more;
    }
  }

  lemma LaterMoves(w: World, user: Id, pub: string, now: int, tr: RoundTrace, d: Store, t: State, ok: bool)
    returns (moves: seq<Move>, inbox: seq<Change>)
    requires Inv(w.server) && w.inbox == tr.a.changes
    requires w.target == NextCursor(w.client.lastSeq, tr.a.changes, tr.a.serverSeq)
    requires GroupsEnd(w.client, w.server, user, tr.a.groups, pub, now, tr.groups, tr.grouped, tr.mid, tr.coordinated)
    requires if !tr.coordinated then d == tr.grouped && t == tr.mid
             else FinishEnds(tr.grouped, tr.mid, user, tr.a.changes, tr.a.serverSeq, now, tr.flushed, tr.ids, tr.push,
                             d, t, ok)
    ensures Reaches(w, moves, World(t, d, inbox, w.target)) && Inv(t)
  {
    inbox := w.inbox;
    var v := w.(server := tr.mid, client := tr.grouped);
    moves := GroupsMoves(w, user, tr.a.groups, pub, now, tr.groups, tr.grouped, tr.mid, tr.coordinated);
    if tr.coordinated {
      var more := FinishMoves(v, user, tr.a.serverSeq, now, tr.flushed, tr.ids, tr.push, d, t, ok);
      Then(w, moves, v, more, World(t, d, [], w.target));
      moves, inbox := moves + more, [];
    }
  }

  /** A round keeps the agreement; the cursor moves only at its end, and to where the pull calls for. */
  lemma RoundKeepsAgreement(c: Store, s: State, user: Id, pub: string, now: int, tr: RoundTrace, d: Store, t: State,
                            ok: bool)
    requires Inv(s) && StoreOk(s.log, c) && RoundEnds(c, s, user, pub, now, tr, d, t, ok)
    ensures Inv(t) && StoreOk(t.log, d)
    ensures d.lastSeq == if ok then NextCursor(c.lastSeq, Pulled(s, user, c.lastSeq), s.seqNo) else c.lastSeq
  {
    var moves, inbox, target := RoundMoves(c, s, user, pub, now, tr, d, t, ok);
    RunAgrees(World(s, c, [], 0), moves);
  }
}
