/**
  The sync engine and the user's edits as they run: an object over the local tables.  Every method is
  proved to change the tables exactly as the corresponding function of module Client does.
 */
module Engine {
  import opened Base
  import opened Json
  import opened Merge
  import opened Wire
  import opened Client
  import opened Agreement
  import opened Cursor
  import opened KeyDelivery
  import opened Pulling
  import ServerInvariant
  import opened RoundSpec
  import opened SyncService

  class SyncEngine {
    var rows: map<Id, Row>
    var waiting: map<Id, Waiting>
    var deks: map<Slot, Key>
    var bad: set<int>
    var recycle: map<Id, Ciphertext>
    var held: set<Id>
    var states: map<Id, GroupNote>
    var lastSeq: int
    var nonce: nat

    ghost function View(): Store
      reads this
    {
      Store(rows, waiting, deks, bad, recycle, held, states, lastSeq, nonce)
    }

    /** The public key of the key pair this client holds. */
    const pub: string

    constructor (pub: string)
      ensures View() == EMPTY_STORE && this.pub == pub
    {
      this.pub := pub;
      rows, waiting, deks, bad, recycle := map[], map[], map[], {}, map[];
      held, states, lastSeq, nonce := {}, map[], 0, 0;
    }

    // ---- the vault ----

    method EncryptPlaintext(g: Id, id: Id, text: Json, kv: int) returns (ct: Option<Ciphertext>)
      modifies `nonce
      ensures HasKey(old(View()), g, kv) ==> ct == Some(Seal(old(View()), g, id, text, kv)) && nonce == old(nonce) + 1
      ensures !HasKey(old(View()), g, kv) ==> ct == None && nonce == old(nonce)
    {
      if Slot(g, kv) !in deks { return None; }
      ct := Some(Sealed(deks[Slot(g, kv)], id, g, kv, text, nonce));
      nonce := nonce + 1;
    }

    method TryAutoMerge(row: Row, theirs: Json) returns (merged: Option<Json>)
      ensures merged == AutoMerge(row, theirs)
    {
      if row.cache.None? { return None; }
      var r := Merger.Run(row.base, row.cache, Some(theirs), []);
      if r.Failed? { return None; }
      if r.HasConflict() { return None; }
      return Some(r.doc);
    }

    // ---- incoming changes ----

    method ApplyOneChange(ch: Change)
      modifies this
      ensures View() == ApplyChange(old(View()), ch) && lastSeq == old(lastSeq)
    {
      var id := ch.entry;
      if ch.deleted {
        ApplyRemoteTombstone(ch);
        return;
      }
      if Slot(ch.group, ch.kv) !in deks {
        waiting := waiting[id := Waiting(ch.group, ch.seqNo, ch.kv, ch.ct)];
        return;
      }
      var text := Decrypt(deks, ch.group, id, ch.ct);
      if text.None? {
        rows := rows[id := Row(ch.group, ch.seqNo, ch.kv, ch.ct, None, None, false, false, false)];
        bad := bad + {ch.seqNo};
        return;
      }
      StorePlaintext(ch, text.value);
    }

    method ApplyRemoteTombstone(ch: Change)
      modifies this
      ensures View() == ApplyTombstone(old(View()), ch)
    {
      var id := ch.entry;
      if id in rows && rows[id].conflict && ch.seqNo <= rows[id].seqNo { return; }
      if id in rows && rows[id].dirty {
        var le := rows[id].(conflict := true);
        le := le.(dirty := false);
        le := le.(seqNo := ch.seqNo);
        le := le.(ct := ch.ct);
        rows := rows[id := le];
        waiting := waiting - {id};
        return;
      }
      if id in rows { recycle := recycle[id := rows[id].ct]; }
      rows := rows - {id};
      waiting := waiting - {id};
    }

    method StorePlaintext(ch: Change, text: Json)
      requires HasKey(View(), ch.group, ch.kv)
      modifies this
      ensures View() == ApplyReadable(old(View()), ch, text)
    {
      var id := ch.entry;
      if id in rows && rows[id].conflict && ch.seqNo <= rows[id].seqNo { return; }
      if id in rows && rows[id].deleted {
        if !rows[id].dirty { rows := rows[id := rows[id].(dirty := true)]; }
        return;
      }
      var conflict, cache, base := false, Some(text), None;
      if id in rows && rows[id].dirty {
        var merged := TryAutoMerge(rows[id], text);
        if merged.Some? {
          var ct := EncryptPlaintext(ch.group, id, merged.value, ch.kv);
          rows := rows[id := Row(ch.group, ch.seqNo, ch.kv, ct.value, merged, rows[id].base, true, false, false)];
          waiting := waiting - {id};
          return;
        }
        conflict, cache, base := true, rows[id].cache, rows[id].base;
      }
      rows := rows[id := Row(ch.group, ch.seqNo, ch.kv, ch.ct, cache, base, false, false, conflict)];
      waiting := waiting - {id};
      bad := bad - {ch.seqNo};
    }

    method ApplyAll(chs: seq<Change>)
      modifies this
      ensures View() == ApplyChanges(old(View()), chs) && lastSeq == old(lastSeq)
    {
      var i := 0;
      while i < |chs|
        invariant 0 <= i <= |chs|
        invariant View() == ApplyChanges(old(View()), chs[..i]) && lastSeq == old(lastSeq)
      {
        ChangesSnoc(old(View()), chs, i);
        ApplyOneChange(chs[i]);
        i := i + 1;
      }
      TakeAll(chs, i);
    }

    method FlushPendingEntries() returns (ghost ids: seq<Id>)
      modifies this
      ensures Listing(ids, old(waiting)) && old(waiting).Keys == set id | id in ids
      ensures View() == Flush(old(View()), old(waiting), ids) && lastSeq == old(lastSeq)
    {
      var listed := waiting;
      var order := Keys(listed);
      ids := order;
      var i := 0;
      while i < |order|
        invariant 0 <= i <= |order|
        invariant View() == Flush(old(View()), listed, order[..i]) && lastSeq == old(lastSeq)
      {
        assert order[..i + 1][..i] == order[..i];
        FlushOne(order[i], listed[order[i]]);
        i := i + 1;
      }
      TakeAll(order, i);
    }

    /** A waiting entry whose key has come is applied; otherwise it goes on waiting. */
    method FlushOne(id: Id, w: Waiting)
      modifies this
      ensures View() == (if HasKey(old(View()), w.group, w.kv) then ApplyChange(old(View()), AsLive(id, w)) else old(View()))
      ensures lastSeq == old(lastSeq)
    {
      if Slot(w.group, w.kv) !in deks { return; }
      ApplyOneChange(AsLive(id, w));
    }

    // ---- pushing ----

    method CollectDirty() returns (ms: seq<Mutation>, ghost ids: seq<Id>)
      ensures Listing(ids, rows) && rows.Keys == set id | id in ids
      ensures ms == Outgoing(View(), ids)
    {
      var order := Keys(rows);
      ids := order;
      ms := [];
      var i := 0;
      while i < |order|
        invariant 0 <= i <= |order|
        invariant ms == Outgoing(View(), order[..i])
      {
        assert order[..i + 1][..i] == order[..i];
        var le := rows[order[i]];
        if le.dirty && le.group !in held {
          ms := ms + [Mutation(order[i], le.group, le.seqNo, le.kv, le.ct, le.deleted)];
        }
        i := i + 1;
      }
      TakeAll(order, i);
    }

    method HandlePushResult(m: Mutation, r: PushResult)
      modifies this
      ensures View() == HandleResult(old(View()), m, r) && lastSeq == old(lastSeq)
    {
      match r
      case Accepted(id, newSeq) =>
        if id in rows && rows[id].deleted {
          rows := rows - {id};
          return;
        }
        if id in rows {
          rows := rows[id := rows[id].(dirty := false)];
          rows := rows[id := rows[id].(base := None)];
          rows := rows[id := rows[id].(seqNo := newSeq)];
        }
      case Refused(id, code, current) =>
        if code == ERR_CONFLICT {
          if current.Some? {
            ResolveRefusal(id, current.value);
          } else if id in rows {
            rows := rows[id := rows[id].(conflict := true)];
          }
        } else if code == ERR_KEY_VERSION_STALE {
          held := held + {m.group};
        }
    }

    method ResolveRefusal(id: Id, current: Change)
      modifies this
      ensures View() == HandlePushConflict(old(View()), id, current)
    {
      if id !in rows { return; }
      var le := rows[id];
      if le.deleted {
        rows := rows[id := Row(current.group, current.seqNo, current.kv, EMPTY, None, None, true, true, false)];
        return;
      }
      var theirs := Decrypt(deks, current.group, id, current.ct);
      if theirs.Some? {
        var merged := TryAutoMerge(le, theirs.value);
        if merged.Some? {
          var ok := WriteMergedDirty(id, le, current.group, current.seqNo, current.kv, merged.value);
          if ok { return; }
        }
      }
      rows := rows[id := Row(current.group, current.seqNo, current.kv, current.ct, le.cache, le.base, false, false, true)];
    }

    method WriteMergedDirty(id: Id, le: Row, g: Id, seqNo: int, kv: int, merged: Json) returns (ok: bool)
      modifies this
      ensures ok == HasKey(old(View()), g, kv)
      ensures View() ==
        if ok then PutSealed(old(View()), id, Row(g, seqNo, kv, Seal(old(View()), g, id, merged, kv), Some(merged),
                                                  le.base, true, false, false))
        else old(View())
    {
      var ct := EncryptPlaintext(g, id, merged, kv);
      if ct.None? { return false; }
      rows := rows[id := Row(g, seqNo, kv, ct.value, Some(merged), le.base, true, false, false)];
      return true;
    }

    method HandlePushResults(ms: seq<Mutation>, rs: seq<PushResult>)
      requires |ms| == |rs|
      modifies this
      ensures View() == HandleResults(old(View()), ms, rs) && lastSeq == old(lastSeq)
    {
      var i := 0;
      while i < |rs|
        invariant 0 <= i <= |rs|
        invariant View() == HandleResults(old(View()), ms[..i], rs[..i]) && lastSeq == old(lastSeq)
      {
        ResultsSnoc(old(View()), ms, rs, i);
        HandlePushResult(ms[i], rs[i]);
        i := i + 1;
      }
      TakeAll(ms, i);
      TakeAll(rs, i);
    }

    /** Collect, send, handle the answers; nothing is sent when nothing is dirty. */
    method PushDirty(api: Service, user: Id, now: int, fate: Fate) returns (ok: bool, ghost ids: seq<Id>)
      modifies this, api
      ensures PushEnds(old(View()), old(api.Tables()), user, ids, now, fate, View(), api.Tables(), ok)
      ensures lastSeq == old(lastSeq)
    {
      var ms;
      ms, ids := CollectDirty();
      if ms == [] { return true, ids; }
      if fate.Lost? { return false, ids; }
      var rs, notified := api.Push(user, ms, now);
      if fate.AnswerLost? { return false, ids; }
      HandlePushResults(ms, rs);
      return true, ids;
    }

    // ---- re-encryption ----

    method ReencryptGroupEntries(g: Id, newKV: int) returns (ghost ids: seq<Id>)
      modifies this
      ensures Listing(ids, old(rows)) && old(rows).Keys == set id | id in ids
      ensures View() == Reencrypt(old(View()), g, newKV, ids) && lastSeq == old(lastSeq)
    {
      var order := Keys(rows);
      ids := order;
      var i := 0;
      while i < |order|
        invariant 0 <= i <= |order|
        invariant View() == Reencrypt(old(View()), g, newKV, order[..i])
        invariant deks == old(deks) && lastSeq == old(lastSeq)
      {
        ReencryptSnoc(old(View()), g, newKV, order, i);
        var ok := ReencryptOne(g, newKV, order[i]);
        if !ok { return; }
        i := i + 1;
      }
      TakeAll(order, i);
    }

    /** `ok` is false when the row cannot be sealed for lack of the new key. */
    method ReencryptOne(g: Id, newKV: int, id: Id) returns (ok: bool)
      modifies this
      ensures View() == ReencryptNext(old(View()), g, newKV, id)
      ensures !ok ==> !HasKey(old(View()), g, newKV)
      ensures deks == old(deks) && lastSeq == old(lastSeq)
    {
      if id !in rows { return true; }
      var le := rows[id];
      if le.group != g || le.kv == newKV { return true; }
      var text := Decrypt(deks, g, id, le.ct);
      if text.None? { return true; }
      var ct := EncryptPlaintext(g, id, text.value, newKV);
      if ct.None? { return false; }
      rows := rows[id := le.(ct := ct.value, kv := newKV, dirty := true, cache := text)];
      return true;
    }

    // ---- envelopes and keys ----

    /** What the client declares: the highest version it has per group. */
    method LocalKeyVersions() returns (declared: map<Id, int>)
      ensures Declares(deks, declared)
    {
      declared := map[];
      var rest := deks.Keys;
      while rest != {}
        invariant rest <= deks.Keys
        invariant forall g :: g in declared ==> Slot(g, declared[g]) in deks
        invariant forall k :: k in deks && k !in rest ==> k.group in declared && k.kv <= declared[k.group]
        decreases |rest|
      {
        var k :| k in rest;
        if k.group !in declared || declared[k.group] < k.kv { declared := declared[k.group := k.kv]; }
        rest := rest - {k};
      }
    }

    /** One envelope for every listed member whose public key is known. */
    static method WrapFor(members: seq<Id>, keys: map<Id, string>, dek: Key) returns (envs: seq<Upload>)
      ensures envs == Wrappings(members, keys, dek)
    {
      envs := [];
      var i := 0;
      while i < |members|
        invariant 0 <= i <= |members|
        invariant envs == Wrappings(members[..i], keys, dek)
      {
        assert members[..i + 1][..i] == members[..i];
        if members[i] in keys { envs := envs + [Upload(members[i], Wrapped.Wrapped(keys[members[i]], dek))]; }
        i := i + 1;
      }
      TakeAll(members, i);
    }

    /** Envelope after envelope; the first one that does not open ends the round. */
    method ApplyEnvelopes(envs: seq<Envelope>) returns (ok: bool)
      modifies `deks
      ensures (deks, ok) == LearnAll(old(deks), envs, pub)
    {
      var i := 0;
      while i < |envs|
        invariant 0 <= i <= |envs|
        invariant LearnAll(old(deks), envs, pub) == LearnAll(deks, envs[i..], pub)
      {
        var key := Unwrap(pub, envs[i].wrapped);
        if key.None? { return false; }
        deks := deks[Slot(envs[i].group, envs[i].kv) := key.value];
        assert envs[i..][1..] == envs[i + 1..];
        i := i + 1;
      }
      return true;
    }

    /**
      Without a key of the group at all, a first one is made; the missing members are given what
      there is.  A client that has only keys of other versions gives up.
     */
    method AutoWrap(api: Service, user: Id, g: Id, kv: int, missing: seq<Id>, made: Key, listed: bool, fate: Fate)
      returns (ok: bool)
      modifies this, api
      ensures WrapEnds(old(View()), old(api.Tables()), user, g, kv, missing, made, listed, fate, View(), api.Tables(), ok)
      ensures lastSeq == old(lastSeq)
    {
      if !listed { return false; }
      var keys := api.ListUsers();
      if Slot(g, kv) !in deks {
        var any := HasAnyKey(g);
        if any { return false; }
        deks := deks[Slot(g, kv) := made];
      }
      var envs := WrapFor(missing, keys, deks[Slot(g, kv)]);
      if envs == [] { return true; }
      if fate.Lost? { return false; }
      var code := api.UploadKeys(user, g, kv, envs);
      return fate.Works? && code == 0;
    }

    method HasAnyKey(g: Id) returns (any: bool)
      ensures any <==> exists k :: Slot(g, k) in deks
    {
      any := exists s :: s in deks && s.group == g;
      if any {
        ghost var s :| s in deks && s.group == g;
        assert Slot(g, s.kv) in deks;
      }
    }

    /**
      Store a new key, upload it for the active members and, if that commits the rekey, re-encrypt
      and push while the group is held.  Once begun, it releases the group whatever happens; a failed
      upload is not an error.
     */
    method AutoRekey(api: Service, user: Id, g: Id, kv: int, active: seq<Id>, newKey: Key, fates: RekeyFates, now: int)
      returns (ok: bool, ghost ids: seq<Id>, ghost sent: seq<Id>, ghost done: Store)
      modifies this, api
      ensures RekeyEnds(old(View()), old(api.Tables()), user, g, kv, active, newKey, fates, now, ids, sent, done,
                        View(), api.Tables(), ok)
      ensures lastSeq == old(lastSeq)
    {
      ids, sent, done := [], [], View();
      if Slot(g, kv) !in deks { return true, ids, sent, done; }
      held := held + {g};
      deks := deks[Slot(g, kv + 1) := newKey];
      ok, ids, sent := TryRekey(api, user, g, kv + 1, active, newKey, fates, now);
      done := View();
      held := held - {g};
    }

    method TryRekey(api: Service, user: Id, g: Id, newKV: int, active: seq<Id>, newKey: Key, fates: RekeyFates, now: int)
      returns (ok: bool, ghost ids: seq<Id>, ghost sent: seq<Id>)
      modifies this, api
      ensures TryEnds(old(View()), old(api.Tables()), user, g, newKV, active, newKey, fates, now, ids, sent, View(),
                      api.Tables(), ok)
      ensures lastSeq == old(lastSeq)
    {
      ids, sent := [], [];
      if !fates.listed { return false, ids, sent; }
      var keys := api.ListUsers();
      var envs := WrapFor(active, keys, newKey);
      if envs == [] || fates.upload.Lost? { return true, ids, sent; }
      var code := api.UploadKeys(user, g, newKV, envs);
      if code != 0 || fates.upload.AnswerLost? { return true, ids, sent; }
      ids := ReencryptGroupEntries(g, newKV);
      ok, sent := PushDirty(api, user, now, fates.push);
    }

    // ---- one round ----

    /** A pull from the very beginning, made when a group is new or leaves the archive. */
    method PullGroupFull(api: Service, user: Id, g: Id, fate: Fate) returns (ok: bool, ghost a: PullAnswer)
      requires ServerInvariant.Inv(api.Tables())
      modifies this
      ensures FullEnds(old(View()), api.Tables(), user, g, fate, pub, a, View(), ok)
      ensures lastSeq == old(lastSeq)
    {
      if !fate.Works? { return false, PullAnswer(0, [], [], []); }
      var code, answer := api.Pull(user, 0, None, map[g := 0]);
      a := answer;
      ok := ApplyEnvelopes(answer.envelopes);
      if ok { ApplyAll(answer.changes); }
    }

    method Refresh(api: Service, user: Id, st: GroupState, outside: Outside)
      returns (ok: bool, ghost pull: Fate, ghost a: PullAnswer)
      requires ServerInvariant.Inv(api.Tables())
      modifies this, outside
      ensures RefreshEnds(old(View()), api.Tables(), user, st, pub, pull, a, View(), ok)
      ensures lastSeq == old(lastSeq)
    {
      pull, a := Works, PullAnswer(0, [], [], []);
      var known := st.id in states;
      if (known && states[st.id].archived && !st.archived) || (!known && !st.archived) {
        var fate := outside.NextFate();
        pull := fate;
        ok, a := PullGroupFull(api, user, st.id, fate);
      } else {
        ok := true;
      }
    }

    /** Envelopes for the members who lack one. */
    method GiveEnvelopes(api: Service, user: Id, st: GroupState, outside: Outside) returns (ok: bool, ghost run: WrapRun)
      modifies this, api, outside
      ensures GiveEnds(old(View()), old(api.Tables()), user, st, run, View(), api.Tables(), ok)
      ensures lastSeq == old(lastSeq)
    {
      run := WrapRun(0, true, Works);
      if st.missing == [] { return true, run; }
      var listed := outside.Reachable();
      var fate := outside.NextFate();
      var made := outside.NewKey();
      run := WrapRun(made, listed, fate);
      ok := AutoWrap(api, user, st.id, st.kv, st.missing, made, listed, fate);
    }

    /** A rekey, if one is pending. */
    method RotateKey(api: Service, user: Id, st: GroupState, now: int, outside: Outside)
      returns (ok: bool, ghost run: RekeyRun)
      modifies this, api, outside
      ensures RotateEnds(old(View()), old(api.Tables()), user, st, now, run, View(), api.Tables(), ok)
      ensures lastSeq == old(lastSeq)
    {
      run := RekeyRun(0, RekeyFates(true, Works, Works), [], [], View());
      if !st.pending { return true, run; }
      var listed := outside.Reachable();
      var upload := outside.NextFate();
      var push := outside.NextFate();
      var made := outside.NewKey();
      var fates := RekeyFates(listed, upload, push);
      ghost var ids, sent, done;
      ok, ids, sent, done := AutoRekey(api, user, st.id, st.kv, st.active, made, fates, now);
      run := RekeyRun(made, fates, ids, sent, done);
    }

    /** The coordination of one group, in the order of the source. */
    method ApplyGroup(api: Service, user: Id, st: GroupState, now: int, outside: Outside)
      returns (ok: bool, ghost tr: GroupTrace)
      requires ServerInvariant.Inv(api.Tables())
      modifies this, api, outside
      ensures GroupEnds(old(View()), old(api.Tables()), user, st, pub, now, tr, View(), api.Tables(), ok)
      ensures lastSeq == old(lastSeq)
    {
      ghost var pull, a, wrap, rekey;
      ok, pull, a := Refresh(api, user, st, outside);
      tr := GroupTrace(pull, a, View(), ok, WrapRun(0, true, Works), View(), api.Tables(), true,
                       RekeyRun(0, RekeyFates(true, Works, Works), [], [], View()));
      if !ok { return; }
      states := states[st.id := GroupNote(st.kv, st.archived)];
      if st.archived { return; }
      ok, wrap := GiveEnvelopes(api, user, st, outside);
      tr := tr.(wrap := wrap, given := View(), mid := api.Tables(), wrapped := ok);
      if !ok { return; }
      ok, rekey := RotateKey(api, user, st, now, outside);
      tr := tr.(rekey := rekey);
    }

    method ApplyGroups(api: Service, user: Id, sts: seq<GroupState>, now: int, outside: Outside)
      returns (ok: bool, ghost tr: GroupsTrace)
      requires ServerInvariant.Inv(api.Tables())
      modifies this, api, outside
      ensures GroupsEnd(old(View()), old(api.Tables()), user, sts, pub, now, tr, View(), api.Tables(), ok)
      ensures ServerInvariant.Inv(api.Tables()) && lastSeq == old(lastSeq)
    {
      tr := Start;
      ok := true;
      var i := 0;
      while i < |sts|
        invariant 0 <= i <= |sts| && Handled(tr) == i && ok
        invariant Coordinated(old(View()), old(api.Tables()), user, sts, pub, now, tr, View(), api.Tables(), true)
        invariant ServerInvariant.Inv(api.Tables()) && lastSeq == old(lastSeq)
      {
        ghost var store, server := View(), api.Tables();
        ghost var step;
        ok, step := ApplyGroup(api, user, sts[i], now, outside);
        OneGroupMore(old(View()), old(api.Tables()), user, sts, pub, now, tr, store, server, step, View(), api.Tables(), ok);
        tr := After(tr, store, server, step);
        if !ok { return; }
        i := i + 1;
      }
    }

    /**
      One round: pull, envelopes, groups, waiting entries, changes, push, cursor.  It may fail at
      every request; whatever happens, client and server stay in agreement, and the cursor moves only
      at the very end, to where the pulled changes call for.
     */
    method SyncOnce(api: Service, user: Id, now: int, outside: Outside) returns (ok: bool, ghost tr: RoundTrace)
      requires ServerInvariant.Inv(api.Tables())
      modifies this, api, outside
      ensures RoundEnds(old(View()), old(api.Tables()), user, pub, now, tr, View(), api.Tables(), ok)
      ensures ServerInvariant.Inv(api.Tables())
      ensures StoreOk(old(api.log), old(View())) ==> StoreOk(api.log, View())
    {
      var declared := LocalKeyVersions();
      var fate := outside.NextFate();
      tr := RoundTrace(declared, fate, PullAnswer(0, [], [], []), Start, View(), api.Tables(), true, [], [], Works);
      if !fate.Works? { return false, tr; }
      var code, a := api.Pull(user, lastSeq, None, declared);
      tr := tr.(a := a);
      ok := ApplyEnvelopes(a.envelopes);
      if ok {
        ghost var groups;
        ok, groups := ApplyGroups(api, user, a.groups, now, outside);
        tr := tr.(groups := groups, grouped := View(), mid := api.Tables(), coordinated := ok);
        if ok {
          ghost var flushed, ids, push;
          ok, flushed, ids, push := Finish(api, user, a.changes, a.serverSeq, now, outside);
          tr := tr.(flushed := flushed, ids := ids, push := push);
        }
      }
      if StoreOk(old(api.log), old(View())) {
        RoundKeepsAgreement(old(View()), old(api.Tables()), user, pub, now, tr, View(), api.Tables(), ok);
      }
    }

    /** Waiting entries, changes, push and cursor. */
    method Finish(api: Service, user: Id, changes: seq<Change>, serverSeq: int, now: int, outside: Outside)
      returns (ok: bool, ghost flushed: seq<Id>, ghost ids: seq<Id>, ghost fate: Fate)
      requires ServerInvariant.Inv(api.Tables())
      modifies this, api, outside
      ensures FinishEnds(old(View()), old(api.Tables()), user, changes, serverSeq, now, flushed, ids, fate, View(),
                         api.Tables(), ok)
      ensures ServerInvariant.Inv(api.Tables())
    {
      flushed := FlushPendingEntries();
      ApplyAll(changes);
      var push := outside.NextFate();
      fate := push;
      ghost var applied := View();
      ok, ids := PushDirty(api, user, now, push);
      PushKeepsInv(applied, old(api.Tables()), user, ids, now, fate, View(), api.Tables(), ok);
      if !ok { return; }
      var newLast := serverSeq;
      if |changes| > 0 && changes[|changes| - 1].seqNo < serverSeq {
        newLast := changes[|changes| - 1].seqNo;
      }
      if newLast > lastSeq { lastSeq := newLast; }
    }

    // ---- the user's edits ----

    method Put(g: Id, id: Id, text: Json)
      modifies this
      ensures View() == PutEntry(old(View()), g, id, text)
    {
      var kv := 1;
      if g in states && states[g].kv > 0 { kv := states[g].kv; }
      var seqNo, base := 0, None;
      if id in rows {
        var le := rows[id];
        seqNo := le.seqNo;
        if le.base.None? && !le.conflict && le.cache.Some? {
          base := le.cache;
        } else if le.base.Some? {
          base := le.base;
        }
      }
      var ct := EncryptPlaintext(g, id, text, kv);
      if ct.None? { return; }
      rows := rows[id := Row(g, seqNo, kv, ct.value, Some(text), base, true, false, false)];
    }

    method Delete(id: Id)
      modifies this
      ensures View() == DeleteEntry(old(View()), id)
    {
      if id !in rows { return; }
      var le := rows[id];
      recycle := recycle[id := le.ct];
      rows := rows[id := Row(le.group, le.seqNo, le.kv, EMPTY, None, None, true, true, false)];
    }

    method Restore(id: Id)
      modifies this
      ensures View() == RestoreEntry(old(View()), id)
    {
      if id !in recycle || recycle[id] == EMPTY { return; }
      if id !in rows { return; }
      var le := rows[id];
      if le.group == "" || !le.deleted { return; }
      var text := Decrypt(deks, le.group, id, recycle[id]);
      if text.None? { return; }
      rows := rows[id := Row(le.group, le.seqNo, le.kv, recycle[id], text, None, true, false, false)];
      recycle := recycle - {id};
    }

    method Resolve(id: Id, choice: Choice)
      modifies this
      ensures View() == ResolveConflict(old(View()), id, choice)
    {
      if id !in rows || !rows[id].conflict { return; }
      var le := rows[id];
      var text: Option<Json>;
      match choice {
        case Manual(doc) => text := Some(doc);
        case TakeOurs => text := le.cache;
        case TakeTheirs => text := Decrypt(deks, le.group, id, le.ct);
      }
      if text.None? { return; }
      var ct := EncryptPlaintext(le.group, id, text.value, le.kv);
      if ct.None? { return; }
      rows := rows[id := Row(le.group, le.seqNo, le.kv, ct.value, text, None, true, false, false)];
    }
  }

  /** The row re-encrypted, if the new key is there. */
  function ReencryptNext(c: Store, g: Id, newKV: int, id: Id): Store {
    if HasKey(c, g, newKV) then ReencryptRow(c, g, newKV, id) else c
  }

  lemma ReencryptSnoc(c: Store, g: Id, newKV: int, ids: seq<Id>, i: nat)
    requires i < |ids|
    ensures Reencrypt(c, g, newKV, ids[..i + 1]) == ReencryptNext(Reencrypt(c, g, newKV, ids[..i]), g, newKV, ids[i])
    ensures !HasKey(c, g, newKV) ==> Reencrypt(c, g, newKV, ids[..i + 1]) == Reencrypt(c, g, newKV, ids)
  {
    assert ids[..i + 1][..i] == ids[..i];
  }

  lemma ChangesSnoc(c: Store, chs: seq<Change>, i: nat)
    requires i < |chs|
    ensures ApplyChanges(c, chs[..i + 1]) == ApplyChange(ApplyChanges(c, chs[..i]), chs[i])
  {
    assert chs[..i + 1][..i] == chs[..i];
  }

  lemma ResultsSnoc(c: Store, ms: seq<Mutation>, rs: seq<PushResult>, i: nat)
    requires i < |ms| == |rs|
    ensures HandleResults(c, ms[..i + 1], rs[..i + 1]) == HandleResult(HandleResults(c, ms[..i], rs[..i]), ms[i], rs[i])
  {
    assert ms[..i + 1][..i] == ms[..i] && rs[..i + 1][..i] == rs[..i];
  }

  /** Rows are read in an order the table chooses, each once. */
  method Keys<V>(rows: map<Id, V>) returns (ids: seq<Id>)
    ensures Listing(ids, rows) && rows.Keys == set id | id in ids
  {
    ids := [];
    var rest := rows.Keys;
    while rest != {}
      invariant forall id :: id in rows <==> id in rest || id in ids
      invariant forall i :: 0 <= i < |ids| ==> ids[i] !in rest
      invariant forall i, j :: 0 <= i < j < |ids| ==> ids[i] != ids[j]
      decreases |rest|
    {
      var id :| id in rest;
      ids, rest := ids + [id], rest - {id};
    }
  }
}
