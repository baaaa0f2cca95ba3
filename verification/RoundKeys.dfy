/**
  What a round does with keys: what it learns and keeps, whom it gives envelopes, and that a pending
  rekey is carried out and its key reaches every member.
 */
module RoundKeys {
  import opened Base
  import opened StringOrder
  import opened Wire
  import opened Server
  import opened ServerInvariant
  import opened ServerHistory
  import opened Rekey
  import opened Authority
  import opened ServerChanges
  import opened Pulling
  import opened Client
  import opened ClientSafety
  import opened Agreement
  import opened KeyDelivery
  import opened SyncService
  import opened RoundSpec

  // ---- opening envelopes ----

  function SlotOf(e: Envelope): Slot { Slot(e.group, e.kv) }

  /** How many of the envelopes open before the first that does not. */
  function Opened(envs: seq<Envelope>, pub: string): (n: nat)
    ensures n <= |envs| && (forall i :: 0 <= i < n ==> Unwrap(pub, envs[i].wrapped).Some?)
    ensures n < |envs| ==> Unwrap(pub, envs[n].wrapped).None?
  {
    if envs == [] || Unwrap(pub, envs[0].wrapped).None? then 0 else 1 + Opened(envs[1..], pub)
  }

  /** Of the first n envelopes the i-th is the last for its slot. */
  predicate LastForSlot(envs: seq<Envelope>, n: nat, i: int)
    requires n <= |envs|
  {
    0 <= i < n && forall j :: i < j < n ==> SlotOf(envs[j]) != SlotOf(envs[i])
  }

  ghost predicate LastWins(keys: map<Slot, Key>, envs: seq<Envelope>, n: nat, pub: string)
    requires n <= |envs|
  {
    forall i :: LastForSlot(envs, n, i) ==> Get(keys, SlotOf(envs[i])) == Unwrap(pub, envs[i].wrapped)
  }

  ghost predicate OthersStay(deks: map<Slot, Key>, keys: map<Slot, Key>, envs: seq<Envelope>, n: nat)
    requires n <= |envs|
  {
    forall k :: (forall i :: 0 <= i < n ==> SlotOf(envs[i]) != k) ==> Get(keys, k) == Get(deks, k)
  }

  /**
    Opening envelopes leaves under each slot the key of the last envelope for it among those before
    the first that does not open, and every other key as it was.
   */
  lemma {:induction false} LearnsLast(deks: map<Slot, Key>, envs: seq<Envelope>, pub: string)
    ensures var n, (keys, all) := Opened(envs, pub), LearnAll(deks, envs, pub);
      (all <==> n == |envs|) && LastWins(keys, envs, n, pub) && OthersStay(deks, keys, envs, n)
    decreases |envs|
  {
    if envs != [] && Unwrap(pub, envs[0].wrapped).Some? {
      var more := deks[SlotOf(envs[0]) := Unwrap(pub, envs[0].wrapped).value];
      LearnsLast(more, envs[1..], pub);
      LastShifts(more, LearnAll(deks, envs, pub).0, envs, Opened(envs, pub), pub);
      OthersShift(deks, more, LearnAll(deks, envs, pub).0, envs, Opened(envs, pub));
    }
  }

  lemma LastShifts(more: map<Slot, Key>, keys: map<Slot, Key>, envs: seq<Envelope>, n: nat, pub: string)
    requires 0 < n <= |envs| && Get(more, SlotOf(envs[0])) == Unwrap(pub, envs[0].wrapped)
    requires LastWins(keys, envs[1..], n - 1, pub) && OthersStay(more, keys, envs[1..], n - 1)
    ensures LastWins(keys, envs, n, pub)
  {
    var rest := envs[1..];
    forall i | LastForSlot(envs, n, i) ensures Get(keys, SlotOf(envs[i])) == Unwrap(pub, envs[i].wrapped) {
      forall j | i - 1 < j < n - 1 ensures SlotOf(rest[j]) != SlotOf(envs[i]) { assert rest[j] == envs[j + 1]; }
      if i > 0 { assert rest[i - 1] == envs[i] && LastForSlot(rest, n - 1, i - 1); }
    }
  }

  lemma OthersShift(deks: map<Slot, Key>, more: map<Slot, Key>, keys: map<Slot, Key>, envs: seq<Envelope>, n: nat)
    requires 0 < n <= |envs| && forall k :: k != SlotOf(envs[0]) ==> Get(more, k) == Get(deks, k)
    requires OthersStay(more, keys, envs[1..], n - 1)
    ensures OthersStay(deks, keys, envs, n)
  {
    var rest := envs[1..];
    forall k | forall i :: 0 <= i < n ==> SlotOf(envs[i]) != k ensures Get(keys, k) == Get(deks, k) {
      forall j | 0 <= j < n - 1 ensures SlotOf(rest[j]) != k { assert rest[j] == envs[j + 1]; }
      assert SlotOf(envs[0]) != k;
    }
  }

  lemma {:induction false} LastIndex(envs: seq<Envelope>, n: nat, i: nat) returns (l: nat)
    requires i < n <= |envs|
    ensures LastForSlot(envs, n, l) && SlotOf(envs[l]) == SlotOf(envs[i])
    decreases n - i
  {
    if j :| i < j < n && SlotOf(envs[j]) == SlotOf(envs[i]) { l := LastIndex(envs, n, j); } else { l := i; }
  }

  /** The client holds the key of every envelope delivered to it, as sealed for it. */
  ghost predicate HoldsDelivered(deks: map<Slot, Key>, s: State, user: Id, declared: map<Id, int>, pub: string) {
    forall k :: k in Delivered(s, user, declared) ==>
      Slot(k.group, k.kv) in deks && Some(deks[Slot(k.group, k.kv)]) == Unwrap(pub, s.envs[k])
  }

  /** A pull whose envelopes all open leaves the client with the key of each of them. */
  lemma PullTeachesAll(deks: map<Slot, Key>, s: State, user: Id, since: int, declared: map<Id, int>, a: PullAnswer, pub: string)
    requires Answers(s, user, since, None, declared, a) && LearnAll(deks, a.envelopes, pub).1
    ensures HoldsDelivered(LearnAll(deks, a.envelopes, pub).0, s, user, declared, pub)
  {
    var envs, keys := a.envelopes, LearnAll(deks, a.envelopes, pub).0;
    LearnsLast(deks, envs, pub);
    forall k | k in Delivered(s, user, declared)
      ensures Slot(k.group, k.kv) in keys && Some(keys[Slot(k.group, k.kv)]) == Unwrap(pub, s.envs[k])
    {
      var e := Envelope(k.group, k.kv, s.envs[k]);
      assert k == EnvKey(e.group, e.kv, user) && Sends(s, user, None, declared, e);
      var i :| 0 <= i < |envs| && envs[i] == e;
      var l := LastIndex(envs, |envs|, i);
      assert envs[l] in envs && Sends(s, user, None, declared, envs[l]);
      assert Get(keys, SlotOf(envs[l])) == Unwrap(pub, envs[l].wrapped);
    }
  }

  // ---- the client's own requests leave the envelopes it was sent in place ----

  /** An envelope of s is still there as it was, or its version is past. */
  ghost predicate KeysLast(s: State, t: State) {
    forall k :: k in s.envs ==>
      k.group in t.groups && if k in t.envs then t.envs[k] == s.envs[k] else k.kv < t.groups[k.group].kv
  }

  lemma StepKeysLast(s: State, mid: State, step: Step)
    requires Inv(mid) && KeysLast(s, mid) && (step.Push? || step.Upload?)
    ensures KeysLast(s, Apply(mid, step))
  {
    var t := Apply(mid, step);
    forall k | k in s.envs
      ensures k.group in t.groups && if k in t.envs then t.envs[k] == s.envs[k] else k.kv < t.groups[k.group].kv
    {
      GroupChanges(mid, step, k.group);
      if k in mid.envs {
        EnvelopeGoes(mid, step, k);
        if k in t.envs { EnvelopesNeverOverwritten(mid, step, k); }
      } else {
        EnvelopeAppears(mid, step, k);
        if step.Upload? { UploadAcceptedIff(mid, step.user, step.g, step.kv, step.ups); }
      }
    }
  }

  lemma {:induction false} PushesKeysLast(s: State, mid: State, user: Id, ms: seq<Mutation>, now: int)
    requires Inv(mid) && KeysLast(s, mid)
    ensures KeysLast(s, PushAll(mid, user, ms, now).0)
  {
    if ms != [] {
      var n := |ms| - 1;
      PushesKeysLast(s, mid, user, ms[..n], now);
      BatchInv(mid, user, ms[..n], now);
      StepKeysLast(s, PushAll(mid, user, ms[..n], now).0, Push(user, ms[n], now));
    }
  }

  /** What a pull of this client still needs to hold while its round goes on. */
  ghost predicate Secured(c: Store, s: State, t: State, user: Id, declared: map<Id, int>, pub: string) {
    HoldsDelivered(c.deks, s, user, declared, pub) && KeysLast(s, t)
  }

  lemma {:induction false} ChangesKeepKeys(c: Store, chs: seq<Change>)
    ensures ApplyChanges(c, chs).deks == c.deks
  {
    if chs != [] {
      ChangesKeepKeys(c, chs[..|chs| - 1]);
      KeysKept(ApplyChanges(c, chs[..|chs| - 1]), chs[|chs| - 1]);
    }
  }

  lemma {:induction false} FlushKeepsKeys(c: Store, listed: map<Id, Waiting>, ids: seq<Id>)
    requires forall id :: id in ids ==> id in listed
    ensures Flush(c, listed, ids).deks == c.deks
  {
    if ids != [] {
      var n := |ids| - 1;
      FlushKeepsKeys(c, listed, ids[..n]);
      KeysKept(Flush(c, listed, ids[..n]), AsLive(ids[n], listed[ids[n]]));
    }
  }

  lemma ConflictKeepsKeys(c: Store, id: Id, current: Change)
    ensures HandlePushConflict(c, id, current).deks == c.deks
  {
  }

  lemma AnswerKeepsKeys(c: Store, m: Mutation, r: PushResult)
    ensures HandleResult(c, m, r).deks == c.deks
  {
    if r.Refused? && r.current.Some? { ConflictKeepsKeys(c, r.entry, r.current.value); }
  }

  lemma {:induction false} AnswersKeepKeys(c: Store, ms: seq<Mutation>, rs: seq<PushResult>)
    requires |ms| == |rs|
    ensures HandleResults(c, ms, rs).deks == c.deks
  {
    if ms != [] {
      var n := |ms| - 1;
      AnswersKeepKeys(c, ms[..n], rs[..n]);
      AnswerKeepsKeys(HandleResults(c, ms[..n], rs[..n]), ms[n], rs[n]);
    }
  }

  lemma PushKeepsDeks(c: Store, s: State, user: Id, ids: seq<Id>, now: int, fate: Fate, d: Store, t: State, ok: bool)
    requires PushEnds(c, s, user, ids, now, fate, d, t, ok)
    ensures d.deks == c.deks
  {
    var ms := Outgoing(c, ids);
    var rs := PushAll(s, user, ms, now).1;
    if |rs| == |ms| { AnswersKeepKeys(c, ms, rs); }
  }

  lemma PushSecured(c: Store, s: State, mid: State, user: Id, declared: map<Id, int>, pub: string, ids: seq<Id>, now: int,
                    fate: Fate, d: Store, t: State, ok: bool)
    requires Inv(mid) && Secured(c, s, mid, user, declared, pub) && PushEnds(c, mid, user, ids, now, fate, d, t, ok)
    ensures Secured(d, s, t, user, declared, pub)
  {
    PushKeepsDeks(c, mid, user, ids, now, fate, d, t, ok);
    PushesKeysLast(s, mid, user, Outgoing(c, ids), now);
  }

  lemma FullSecured(c: Store, s: State, mid: State, user: Id, declared: map<Id, int>, pub: string, g: Id, fate: Fate,
                    a: PullAnswer, d: Store, ok: bool)
    requires Secured(c, s, mid, user, declared, pub) && FullEnds(c, mid, user, g, fate, pub, a, d, ok)
    ensures Secured(d, s, mid, user, declared, pub)
  {
    if fate.Works? {
      Learned(c.deks, a.envelopes, pub);
      var keys := LearnAll(map[], a.envelopes, pub).0;
      if ok { ChangesKeepKeys(c.(deks := c.deks + keys), a.changes); }
      assert d.deks == c.deks + keys;
      forall k | k in Delivered(s, user, declared)
        ensures Slot(k.group, k.kv) in d.deks && Some(d.deks[Slot(k.group, k.kv)]) == Unwrap(pub, s.envs[k])
      {
        if Slot(k.group, k.kv) in keys {
          var e :| e in a.envelopes && Slot(e.group, e.kv) == Slot(k.group, k.kv) &&
                   Unwrap(pub, e.wrapped) == Some(keys[Slot(k.group, k.kv)]);
          assert Sends(mid, user, None, map[g := 0], e) && EnvKey(e.group, e.kv, user) == k;
        }
      }
    }
  }

  lemma GivingHolds(c: Store, s: State, user: Id, st: GroupState, run: WrapRun, d: Store, t: State, ok: bool)
    requires GiveEnds(c, s, user, st, run, d, t, ok)
    ensures forall k :: k in c.deks ==> k in d.deks && d.deks[k] == c.deks[k]
  {
  }

  lemma GivingLasts(c: Store, s: State, mid: State, user: Id, st: GroupState, run: WrapRun, d: Store, t: State, ok: bool)
    requires Inv(mid) && KeysLast(s, mid) && GiveEnds(c, mid, user, st, run, d, t, ok)
    ensures KeysLast(s, t)
  {
    if t != mid {
      StepKeysLast(s, mid, Step.Upload(user, st.id, st.kv, Wrappings(st.missing, ActiveKeys(mid), d.deks[Slot(st.id, st.kv)])));
    }
  }

  lemma WrapSecured(c: Store, s: State, mid: State, user: Id, declared: map<Id, int>, pub: string, st: GroupState,
                    run: WrapRun, d: Store, t: State, ok: bool)
    requires Inv(mid) && Secured(c, s, mid, user, declared, pub) && GiveEnds(c, mid, user, st, run, d, t, ok)
    ensures Secured(d, s, t, user, declared, pub)
  {
    GivingHolds(c, mid, user, st, run, d, t, ok);
    GivingLasts(c, s, mid, user, st, run, d, t, ok);
  }

  lemma RekeySecured(c: Store, s: State, mid: State, user: Id, declared: map<Id, int>, pub: string, st: GroupState,
                     now: int, run: RekeyRun, d: Store, t: State, ok: bool)
    requires Inv(s) && Inv(mid) && Secured(c, s, mid, user, declared, pub)
    requires st.id in s.groups && st.kv == s.groups[st.id].kv && RotateEnds(c, mid, user, st, now, run, d, t, ok)
    ensures Secured(d, s, t, user, declared, pub)
  {
    if st.pending && HasKey(c, st.id, st.kv) {
      var keyed := Keyed(c, st.id, st.kv + 1, run.made);
      KeyedSecured(c, s, mid, user, declared, pub, st.id, st.kv, run.made);
      TryKeepsKeys(keyed, mid, user, st, now, run, t, ok);
      TrySecured(keyed, s, mid, user, declared, pub, st, now, run, t, ok);
    }
  }

  /** The new key goes under a version that no envelope of the pull has. */
  lemma KeyedSecured(c: Store, s: State, mid: State, user: Id, declared: map<Id, int>, pub: string, g: Id, kv: int, key: Key)
    requires Inv(s) && Secured(c, s, mid, user, declared, pub) && g in s.groups && kv == s.groups[g].kv
    ensures Secured(Keyed(c, g, kv + 1, key), s, mid, user, declared, pub)
  {
  }

  lemma TryKeepsKeys(c: Store, s: State, user: Id, st: GroupState, now: int, run: RekeyRun, t: State, ok: bool)
    requires TryEnds(c, s, user, st.id, st.kv + 1, st.active, run.made, run.fates, now, run.ids, run.sent, run.done, t, ok)
    ensures run.done.deks == c.deks
  {
    var upload := UploadKeys(s, user, st.id, st.kv + 1, Wrappings(st.active, ActiveKeys(s), run.made));
    if run.done != c {
      PushKeepsDeks(Reencrypt(c, st.id, st.kv + 1, run.ids), upload.0, user, run.sent, now, run.fates.push, run.done, t, ok);
    }
  }

  lemma TrySecured(c: Store, s: State, mid: State, user: Id, declared: map<Id, int>, pub: string, st: GroupState,
                   now: int, run: RekeyRun, t: State, ok: bool)
    requires Inv(mid) && Secured(c, s, mid, user, declared, pub)
    requires TryEnds(c, mid, user, st.id, st.kv + 1, st.active, run.made, run.fates, now, run.ids, run.sent, run.done, t, ok)
    ensures Secured(run.done, s, t, user, declared, pub)
  {
    var ups := Wrappings(st.active, ActiveKeys(mid), run.made);
    var upload := Step.Upload(user, st.id, st.kv + 1, ups);
    if run.fates.listed && ups != [] && !run.fates.upload.Lost? {
      StepKeysLast(s, mid, upload);
      StepKeepsInv(mid, upload);
      if UploadKeys(mid, user, st.id, st.kv + 1, ups).1 == 0 && !run.fates.upload.AnswerLost? {
        var rewritten := Reencrypt(c, st.id, st.kv + 1, run.ids);
        PushSecured(rewritten, s, Apply(mid, upload), user, declared, pub, run.sent, now, run.fates.push, run.done, t, ok);
      }
    }
  }

  lemma GroupSecured(c: Store, s: State, mid: State, user: Id, declared: map<Id, int>, pub: string, st: GroupState,
                     now: int, tr: GroupTrace, d: Store, t: State, ok: bool)
    requires Inv(s) && Inv(mid) && Secured(c, s, mid, user, declared, pub)
    requires st.id in s.groups && st.kv == s.groups[st.id].kv && GroupEnds(c, mid, user, st, pub, now, tr, d, t, ok)
    ensures Secured(d, s, t, user, declared, pub)
  {
    if NeedsFull(c.states, st) { FullSecured(c, s, mid, user, declared, pub, st.id, tr.pull, tr.a, tr.full, tr.pulled); }
    if tr.pulled && !st.archived {
      var noted := Noted(tr.full, st);
      WrapSecured(noted, s, mid, user, declared, pub, st, tr.wrap, tr.given, tr.mid, tr.wrapped);
      var moves := GiveMoves(World(mid, noted, [], 0), user, st, tr.wrap, tr.given, tr.mid, tr.wrapped);
      if tr.wrapped { RekeySecured(tr.given, s, tr.mid, user, declared, pub, st, now, tr.rekey, d, t, ok); }
    }
  }

  lemma {:induction false} GroupsSecured(c: Store, s: State, mid: State, user: Id, declared: map<Id, int>, pub: string,
                                         sts: seq<GroupState>, now: int, tr: GroupsTrace, d: Store, t: State, ok: bool)
    requires Inv(s) && Inv(mid) && Secured(c, s, mid, user, declared, pub)
    requires forall i :: 0 <= i < |sts| ==> sts[i].id in s.groups && sts[i].kv == s.groups[sts[i].id].kv
    requires Coordinated(c, mid, user, sts, pub, now, tr, d, t, ok)
    ensures Secured(d, s, t, user, declared, pub) && Inv(t)
    decreases tr
  {
    if !tr.Start? {
      GroupsSecured(c, s, mid, user, declared, pub, sts, now, tr.before, tr.store, tr.server, true);
      var st := sts[Handled(tr.before)];
      GroupSecured(tr.store, s, tr.server, user, declared, pub, st, now, tr.step, d, t, ok);
      var moves := GroupMoves(World(tr.server, tr.store, [], 0), user, st, pub, now, tr.step, d, t, ok);
    }
  }

  /** The round got an answer and opened all its envelopes. */
  ghost predicate PastEnvelopes(c: Store, pub: string, tr: RoundTrace) {
    tr.pull.Works? && LearnAll(c.deks, tr.a.envelopes, pub).1
  }

  lemma StatesAreTrue(s: State, user: Id, since: int, declared: map<Id, int>, a: PullAnswer)
    requires Answers(s, user, since, None, declared, a)
    ensures forall i :: 0 <= i < |a.groups| ==> a.groups[i].id in s.groups && a.groups[i] == StateOf(s, a.groups[i].id)
  {
  }

  /**
    A pull tells of each of the user's groups once: version, flag and archiving as they are, who of
    its active members lacks an envelope, and who they are; of an archived group, nobody.
   */
  lemma PullTellsGroups(s: State, user: Id, since: int, declared: map<Id, int>, a: PullAnswer, g: Id)
    returns (i: nat)
    requires Answers(s, user, since, None, declared, a) && g in s.groups && Member(g, user) in s.members
    ensures i < |a.groups| && a.groups[i].id == g && forall j :: 0 <= j < |a.groups| && a.groups[j].id == g ==> j == i
    ensures var st, o := a.groups[i], s.groups[g];
      && st.kv == o.kv && (st.pending <==> o.pending) && (st.archived <==> o.archived)
      && (forall u :: u in st.active <==> !o.archived && u in s.users && s.users[u].active && Member(g, u) in s.members)
      && (forall u :: u in st.missing <==> u in st.active && EnvKey(g, o.kv, u) !in s.envs)
  {
    StatesAreTrue(s, user, since, declared, a);
    assert g in UserGroups(s, user);
    i :| 0 <= i < |a.groups| && a.groups[i].id == g;
    StateTells(s, g);
  }

  /** A pull limited to one group carries changes, envelopes and the state of that group only. */
  lemma PullOfOneGroup(s: State, user: Id, since: int, g: Id, declared: map<Id, int>, a: PullAnswer)
    requires Answers(s, user, since, Some(g), declared, a)
    ensures forall ch :: ch in a.changes ==> ch.group == g
    ensures forall e :: e in a.envelopes <==>
      e.group == g && EnvKey(g, e.kv, user) in Delivered(s, user, declared) && e.wrapped == s.envs[EnvKey(g, e.kv, user)]
    ensures |a.groups| == 1 && a.groups[0].id == g
  {
    MineMembers(Page(s, Clamp(since), PULL_LIMIT), {g});
    var i :| 0 <= i < |a.groups| && a.groups[i].id == g;
    assert forall j :: 0 <= j < |a.groups| ==> a.groups[j].id == g;
    OneDistinct(a.groups, g);
  }

  lemma OneOfTwo(a: GroupState, b: GroupState, states: seq<GroupState>, g: Id)
    requires |states| > 1 && a == states[0] && b == states[1] && DistinctStates(states)
    ensures a.id != g || b.id != g
  {
  }

  lemma OneDistinct(states: seq<GroupState>, g: Id)
    requires DistinctStates(states) && forall j :: 0 <= j < |states| ==> states[j].id == g
    ensures |states| <= 1
  {
    if |states| > 1 { OneOfTwo(states[0], states[1], states, g); }
  }

  lemma StateTells(s: State, g: Id)
    requires g in s.groups
    ensures var st, o := StateOf(s, g), s.groups[g];
      && st.kv == o.kv && (st.pending <==> o.pending) && (st.archived <==> o.archived)
      && (forall u :: u in st.active <==> !o.archived && u in s.users && s.users[u].active && Member(g, u) in s.members)
      && (forall u :: u in st.missing <==> u in st.active && EnvKey(g, o.kv, u) !in s.envs)
  {
  }

  /**
    However a round goes on once its envelopes are open, and whatever it rotates meanwhile, at its
    end the client holds the key of every envelope the server had for it above what it declared.
   */
  lemma RoundTeachesAll(c: Store, s: State, user: Id, pub: string, now: int, tr: RoundTrace, d: Store, t: State, ok: bool)
    requires Inv(s) && RoundEnds(c, s, user, pub, now, tr, d, t, ok) && PastEnvelopes(c, pub, tr)
    ensures HoldsDelivered(d.deks, s, user, tr.declared, pub)
  {
    var learned := c.(deks := LearnAll(c.deks, tr.a.envelopes, pub).0);
    PullTeachesAll(c.deks, s, user, c.lastSeq, tr.declared, tr.a, pub);
    StatesAreTrue(s, user, c.lastSeq, tr.declared, tr.a);
    assert Secured(learned, s, s, user, tr.declared, pub);
    GroupsSecured(learned, s, s, user, tr.declared, pub, tr.a.groups, now, tr.groups, tr.grouped, tr.mid, tr.coordinated);
    if tr.coordinated {
      var c' := tr.grouped;
      FlushKeepsKeys(c', c'.waiting, tr.flushed);
      ChangesKeepKeys(Flush(c', c'.waiting, tr.flushed), tr.a.changes);
      PushKeepsDeks(ApplyChanges(Flush(c', c'.waiting, tr.flushed), tr.a.changes), tr.mid, user, tr.ids, now, tr.push,
                    d.(lastSeq := c'.lastSeq), t, ok);
    }
  }

  /** And what was sealed with such a key opens. */
  lemma TaughtKeyOpens(c: Store, s: State, user: Id, pub: string, now: int, tr: RoundTrace, d: Store, t: State, ok: bool,
                       k: EnvKey, ct: Ciphertext)
    requires Inv(s) && RoundEnds(c, s, user, pub, now, tr, d, t, ok) && PastEnvelopes(c, pub, tr)
    requires k in s.envs && k.user == user && (k.group in tr.declared ==> tr.declared[k.group] < k.kv)
    requires ct.Sealed? && ct.group == k.group && ct.kv == k.kv && Unwrap(pub, s.envs[k]) == Some(ct.dek)
    ensures Decrypt(d.deks, ct.group, ct.entry, ct) == Some(ct.text)
  {
    RoundTeachesAll(c, s, user, pub, now, tr, d, t, ok);
    assert k in Delivered(s, user, tr.declared);
  }

  // ---- what the client's requests leave alone in a group they are not about ----

  /** Members and users as before; of the group only envelopes below its version may go. */
  ghost predicate Spares(s: State, t: State, g: Id)
    requires g in s.groups
  {
    && t.members == s.members && t.users == s.users && g in t.groups
    && t.groups[g].kv == s.groups[g].kv && t.groups[g].archived == s.groups[g].archived
    && (forall k :: k in t.envs && k.group == g ==> Get(s.envs, k) == Some(t.envs[k]))
    && forall k :: k in s.envs && k.group == g && k.kv >= s.groups[g].kv ==> k in t.envs
  }

  lemma SparesItself(s: State, g: Id)
    requires g in s.groups
    ensures Spares(s, s, g)
  {
  }

  lemma SparesThrough(s: State, mid: State, t: State, g: Id)
    requires g in s.groups && Spares(s, mid, g) && Spares(mid, t, g)
    ensures Spares(s, t, g)
  {
  }

  /** The active members, and who lacks an envelope, are then the same. */
  lemma SparedMissing(s: State, t: State, g: Id)
    requires g in s.groups && Spares(s, t, g)
    ensures Active(t, g) == Active(s, g) && Missing(t, g) == Missing(s, g) && ActiveKeys(t) == ActiveKeys(s)
  {
    assert Active(t, g) == Active(s, g);
    forall u | u in Active(s, g)
      ensures EnvKey(g, s.groups[g].kv, u) in t.envs <==> EnvKey(g, s.groups[g].kv, u) in s.envs
    {
    }
  }

  lemma PushSpares(s: State, user: Id, m: Mutation, now: int, g: Id)
    requires g in s.groups
    ensures Spares(s, PushOne(s, user, m, now).0, g)
  {
  }

  lemma {:induction false} PushesSpare(s: State, user: Id, ms: seq<Mutation>, now: int, g: Id)
    requires g in s.groups
    ensures Spares(s, PushAll(s, user, ms, now).0, g)
  {
    if ms != [] {
      var n := |ms| - 1;
      PushesSpare(s, user, ms[..n], now, g);
      PushSpares(PushAll(s, user, ms[..n], now).0, user, ms[n], now, g);
      SparesThrough(s, PushAll(s, user, ms[..n], now).0, PushAll(s, user, ms, now).0, g);
    }
  }

  lemma {:induction false} InsertsElsewhere(envs: Envelopes, g: Id, kv: int, ups: seq<Upload>, k: EnvKey)
    requires k.group != g
    ensures Get(InsertEnvs(envs, g, kv, ups), k) == Get(envs, k)
  {
    if ups != [] { InsertsElsewhere(envs, g, kv, ups[..|ups| - 1], k); }
  }

  lemma UploadElsewhere(s: State, user: Id, h: Id, kv: int, ups: seq<Upload>, k: EnvKey)
    requires k.group != h
    ensures Get(UploadKeys(s, user, h, kv, ups).0.envs, k) == Get(s.envs, k)
  {
    InsertsElsewhere(s.envs, h, kv, ups, k);
    InsertsElsewhere(DropKV(s.envs, h, kv), h, kv, ups, k);
  }

  lemma UploadSpares(s: State, user: Id, h: Id, kv: int, ups: seq<Upload>, g: Id)
    requires g in s.groups && h != g
    ensures Spares(s, UploadKeys(s, user, h, kv, ups).0, g)
  {
    var t := UploadKeys(s, user, h, kv, ups).0;
    UploadRaises(s, user, h, kv, ups, g);
    UploadKeepsPeople(s, user, h, kv, ups);
    forall k: EnvKey | k.group == g ensures Get(t.envs, k) == Get(s.envs, k) { UploadElsewhere(s, user, h, kv, ups, k); }
  }

  lemma UploadKeepsPeople(s: State, user: Id, g: Id, kv: int, ups: seq<Upload>)
    ensures UploadKeys(s, user, g, kv, ups).0.members == s.members && UploadKeys(s, user, g, kv, ups).0.users == s.users
  {
  }

  lemma GivingSpares(c: Store, s: State, user: Id, st: GroupState, run: WrapRun, d: Store, t: State, ok: bool, g: Id)
    requires g in s.groups && g != st.id && GiveEnds(c, s, user, st, run, d, t, ok)
    ensures Spares(s, t, g)
  {
    if t != s {
      UploadSpares(s, user, st.id, st.kv, Wrappings(st.missing, ActiveKeys(s), d.deks[Slot(st.id, st.kv)]), g);
    }
  }

  lemma RotationSpares(c: Store, s: State, user: Id, st: GroupState, now: int, run: RekeyRun, d: Store, t: State,
                       ok: bool, g: Id)
    requires g in s.groups && g != st.id && RotateEnds(c, s, user, st, now, run, d, t, ok)
    ensures Spares(s, t, g)
  {
    if st.pending && HasKey(c, st.id, st.kv) {
      AttemptTries(c, s, user, st, now, run, d, t, ok);
      TrySpares(Keyed(c, st.id, st.kv + 1, run.made), s, user, st, now, run, t, ok, g);
    } else {
      NoAttempt(c, s, user, st, now, run, d, t, ok);
      SparesItself(s, g);
    }
  }

  lemma AttemptTries(c: Store, s: State, user: Id, st: GroupState, now: int, run: RekeyRun, d: Store, t: State, ok: bool)
    requires st.pending && HasKey(c, st.id, st.kv) && RotateEnds(c, s, user, st, now, run, d, t, ok)
    ensures TryEnds(Keyed(c, st.id, st.kv + 1, run.made), s, user, st.id, st.kv + 1, st.active, run.made, run.fates, now,
                    run.ids, run.sent, run.done, t, ok)
  {
  }

  lemma NoAttempt(c: Store, s: State, user: Id, st: GroupState, now: int, run: RekeyRun, d: Store, t: State, ok: bool)
    requires !(st.pending && HasKey(c, st.id, st.kv)) && RotateEnds(c, s, user, st, now, run, d, t, ok)
    ensures t == s && d == c
  {
  }

  lemma TrySpares(c: Store, s: State, user: Id, st: GroupState, now: int, run: RekeyRun, t: State, ok: bool, g: Id)
    requires g in s.groups && g != st.id
    requires TryEnds(c, s, user, st.id, st.kv + 1, st.active, run.made, run.fates, now, run.ids, run.sent, run.done, t, ok)
    ensures Spares(s, t, g)
  {
    var ups := Wrappings(st.active, ActiveKeys(s), run.made);
    var mid := UploadKeys(s, user, st.id, st.kv + 1, ups).0;
    UploadSpares(s, user, st.id, st.kv + 1, ups, g);
    if t != s && t != mid {
      PushesSpare(mid, user, Outgoing(Reencrypt(c, st.id, st.kv + 1, run.ids), run.sent), now, g);
      SparesThrough(s, mid, t, g);
    }
  }

  /** The coordination of one group spares every other. */
  lemma OtherGroupSpared(c: Store, s: State, user: Id, st: GroupState, pub: string, now: int, tr: GroupTrace, d: Store,
                         t: State, ok: bool, g: Id)
    requires g in s.groups && g != st.id && GroupEnds(c, s, user, st, pub, now, tr, d, t, ok)
    ensures Spares(s, t, g)
  {
    if tr.pulled && !st.archived {
      GivingSpares(Noted(tr.full, st), s, user, st, tr.wrap, tr.given, tr.mid, tr.wrapped, g);
      if tr.wrapped {
        RotationSpares(tr.given, tr.mid, user, st, now, tr.rekey, d, t, ok, g);
        SparesThrough(s, tr.mid, t, g);
      }
    }
  }

  // ---- the group a coordination is about ----

  /** What the pull said of a group that is not archived is still so, the flag aside. */
  predicate Accurate(s: State, st: GroupState) {
    && st.id in s.groups && !s.groups[st.id].archived && !st.archived && st.kv == s.groups[st.id].kv
    && st.missing == SortedKeys(Missing(s, st.id)) && st.active == SortedKeys(Active(s, st.id))
  }

  lemma AccurateStays(s: State, t: State, st: GroupState)
    requires Accurate(s, st) && Spares(s, t, st.id)
    ensures Accurate(t, st)
  {
    SparedMissing(s, t, st.id);
  }

  ghost predicate MembersActive(s: State) {
    forall m :: m in s.members ==> m.user in s.users && s.users[m.user].active
  }

  /** The envelopes made for listed active members, one for each, sealed for their keys. */
  lemma WrappingsName(s: State, us: set<Id>, dek: Key)
    requires forall u :: u in us ==> u in s.users && s.users[u].active
    ensures var ups := Wrappings(SortedKeys(us), ActiveKeys(s), dek);
      && DistinctUsers(ups) && UploadUsers(ups) == us && |ups| == |SortedKeys(us)|
      && forall i :: 0 <= i < |ups| ==> ups[i].user in us && ups[i].wrapped == Wrapped.Wrapped(s.users[ups[i].user].pub, dek)
  {
    var list := SortedKeys(us);
    var ups := Wrappings(list, ActiveKeys(s), dek);
    WrapsEveryone(list, ActiveKeys(s), dek);
    forall i, j | 0 <= i < j < |ups| ensures ups[i].user != ups[j].user {
      if list[i] == list[j] { SortedDistinct(list, i, j); }
    }
    forall u | u in us ensures u in UploadUsers(ups) {
      var i :| 0 <= i < |list| && list[i] == u;
      assert ups[i].user == u;
    }
  }

  /** Whoever is listed, an envelope is made only for an active user, and sealed for that user's own key. */
  lemma {:induction false} OnlyActiveWrapped(s: State, members: seq<Id>, dek: Key)
    ensures forall up :: up in Wrappings(members, ActiveKeys(s), dek) ==>
      && up.user in members && up.user in s.users && s.users[up.user].active
      && up.wrapped == Wrapped.Wrapped(s.users[up.user].pub, dek)
  {
    if members != [] { OnlyActiveWrapped(s, members[..|members| - 1], dek); }
  }

  /** Every user of the set has such an envelope of the version. */
  ghost predicate AllGiven(t: State, s: State, g: Id, kv: int, us: set<Id>, dek: Key) {
    forall u :: u in us ==> u in s.users && Get(t.envs, EnvKey(g, kv, u)) == Some(Wrapped.Wrapped(s.users[u].pub, dek))
  }

  lemma UploadGives(s: State, user: Id, g: Id, kv: int, us: set<Id>, dek: Key)
    requires forall u :: u in us ==> u in s.users && s.users[u].active
    requires UploadKeys(s, user, g, kv, Wrappings(SortedKeys(us), ActiveKeys(s), dek)).1 == 0
    ensures AllGiven(UploadKeys(s, user, g, kv, Wrappings(SortedKeys(us), ActiveKeys(s), dek)).0, s, g, kv, us, dek)
  {
    var ups := Wrappings(SortedKeys(us), ActiveKeys(s), dek);
    WrappingsName(s, us, dek);
    UploadIsStored(s, user, g, kv, ups);
    forall u | u in us
      ensures Get(UploadKeys(s, user, g, kv, ups).0.envs, EnvKey(g, kv, u)) == Some(Wrapped.Wrapped(s.users[u].pub, dek))
    {
      assert u in UploadUsers(ups);
      var i :| 0 <= i < |ups| && ups[i].user == u;
    }
  }

  /** Nobody lacks an envelope any more, and those who did have one with this key. */
  ghost predicate Completed(s: State, t: State, g: Id, dek: Key)
    requires g in s.groups
  {
    && t.groups == s.groups && t.members == s.members && t.users == s.users && Missing(t, g) == {}
    && AllGiven(t, s, g, s.groups[g].kv, Missing(s, g), dek) && forall k :: k in s.envs ==> k in t.envs
  }

  lemma UploadCompletes(s: State, user: Id, g: Id, kv: int, missing: seq<Id>, dek: Key)
    requires MayWrite(s, user, g) && kv == s.groups[g].kv && missing == SortedKeys(Missing(s, g)) && missing != []
    ensures var ups := Wrappings(missing, ActiveKeys(s), dek);
      var upload := UploadKeys(s, user, g, kv, ups);
      ups != [] && upload.1 == 0 && Completed(s, upload.0, g, dek)
  {
    var ups := Wrappings(missing, ActiveKeys(s), dek);
    WrappingsName(s, Missing(s, g), dek);
    WrappingMissingCompletes(s, user, g, ups);
    UploadGives(s, user, g, kv, Missing(s, g), dek);
    UploadKeepsPeople(s, user, g, kv, ups);
  }

  /** A wrapping that succeeds leaves no member without an envelope, and gives the missing ones the client's key. */
  lemma GivingCompletes(c: Store, s: State, user: Id, st: GroupState, run: WrapRun, d: Store, t: State)
    requires Accurate(s, st) && Member(st.id, user) in s.members && GiveEnds(c, s, user, st, run, d, t, true)
    ensures if st.missing == [] then t == s && Missing(s, st.id) == {}
            else HasKey(d, st.id, st.kv) && Completed(s, t, st.id, d.deks[Slot(st.id, st.kv)])
  {
    if st.missing == [] {
      assert |st.missing| == |Missing(s, st.id)|;
    } else {
      UploadCompletes(s, user, st.id, st.kv, st.missing, d.deks[Slot(st.id, st.kv)]);
    }
  }

  /** The group went to the next version, and every active member has an envelope with the new key. */
  ghost predicate Rotated(s: State, t: State, g: Id, made: Key)
    requires g in s.groups
  {
    && g in t.groups && t.groups[g].kv == s.groups[g].kv + 1 && Missing(t, g) == {}
    && t.members == s.members && t.users == s.users && t.groups[g].archived == s.groups[g].archived
    && AllGiven(t, s, g, s.groups[g].kv + 1, Active(s, g), made)
  }

  /** A pending rekey with the current key at hand is committed unless its upload is lost. */
  lemma RotationCommits(c: Store, s: State, user: Id, st: GroupState, now: int, run: RekeyRun, d: Store, t: State)
    requires MembersActive(s) && st.id in s.groups && !s.groups[st.id].archived && st.kv == s.groups[st.id].kv
    requires st.active == SortedKeys(Active(s, st.id)) && Member(st.id, user) in s.members
    requires st.pending && HasKey(c, st.id, st.kv) && RotateEnds(c, s, user, st, now, run, d, t, true)
    ensures if run.fates.upload.Lost? then t == s else Rotated(s, t, st.id, run.made)
    ensures Get(d.deks, Slot(st.id, st.kv + 1)) == Some(run.made)
  {
    UploadRotates(s, user, st.id, st.kv + 1, st.active, run.made);
    RotationEnds(c, s, user, st, now, run, d, t);
  }

  lemma RotationEnds(c: Store, s: State, user: Id, st: GroupState, now: int, run: RekeyRun, d: Store, t: State)
    requires st.pending && HasKey(c, st.id, st.kv) && RotateEnds(c, s, user, st, now, run, d, t, true)
    requires st.id in s.groups
    requires var ups := Wrappings(st.active, ActiveKeys(s), run.made);
      var upload := UploadKeys(s, user, st.id, st.kv + 1, ups);
      ups != [] && upload.1 == 0 && Rotated(s, upload.0, st.id, run.made)
    ensures if run.fates.upload.Lost? then t == s else Rotated(s, t, st.id, run.made)
    ensures Get(d.deks, Slot(st.id, st.kv + 1)) == Some(run.made)
  {
    var keyed := Keyed(c, st.id, st.kv + 1, run.made);
    TryKeepsKeys(keyed, s, user, st, now, run, t, true);
    TryCommits(keyed, s, user, st, now, run, t);
  }

  lemma TryCommits(c: Store, s: State, user: Id, st: GroupState, now: int, run: RekeyRun, t: State)
    requires TryEnds(c, s, user, st.id, st.kv + 1, st.active, run.made, run.fates, now, run.ids, run.sent, run.done, t, true)
    requires st.id in s.groups
    requires var ups := Wrappings(st.active, ActiveKeys(s), run.made);
      var upload := UploadKeys(s, user, st.id, st.kv + 1, ups);
      ups != [] && upload.1 == 0 && Rotated(s, upload.0, st.id, run.made)
    ensures if run.fates.upload.Lost? then t == s else Rotated(s, t, st.id, run.made)
  {
    var ms := TryServer(c, s, user, st, now, run, t);
    if run.fates.upload.Works? {
      var ups := Wrappings(st.active, ActiveKeys(s), run.made);
      PushedStaysRotated(s, UploadKeys(s, user, st.id, st.kv + 1, ups).0, user, ms, now, st.id, run.made);
    }
  }

  /** The server after an attempt whose upload would be accepted. */
  lemma TryServer(c: Store, s: State, user: Id, st: GroupState, now: int, run: RekeyRun, t: State)
    returns (ms: seq<Mutation>)
    requires TryEnds(c, s, user, st.id, st.kv + 1, st.active, run.made, run.fates, now, run.ids, run.sent, run.done, t, true)
    requires var ups := Wrappings(st.active, ActiveKeys(s), run.made);
      ups != [] && UploadKeys(s, user, st.id, st.kv + 1, ups).1 == 0
    ensures var mid := UploadKeys(s, user, st.id, st.kv + 1, Wrappings(st.active, ActiveKeys(s), run.made)).0;
      t == match run.fates.upload
           case Lost => s
           case AnswerLost => mid
           case Works => PushAll(mid, user, ms, now).0
  {
    ms := if run.fates.upload.Works? then Outgoing(Reencrypt(c, st.id, st.kv + 1, run.ids), run.sent) else [];
  }

  lemma PushedStaysRotated(s: State, mid: State, user: Id, ms: seq<Mutation>, now: int, g: Id, made: Key)
    requires g in s.groups && Rotated(s, mid, g, made)
    ensures Rotated(s, PushAll(mid, user, ms, now).0, g, made)
  {
    PushesSpare(mid, user, ms, now, g);
    RotatedStays(s, mid, PushAll(mid, user, ms, now).0, g, made);
  }

  lemma UploadRotates(s: State, user: Id, g: Id, kv: int, active: seq<Id>, made: Key)
    requires MembersActive(s) && MayWrite(s, user, g) && kv == s.groups[g].kv + 1 && active == SortedKeys(Active(s, g))
    ensures var ups := Wrappings(active, ActiveKeys(s), made);
      var upload := UploadKeys(s, user, g, kv, ups);
      ups != [] && upload.1 == 0 && Rotated(s, upload.0, g, made)
  {
    var ups := Wrappings(active, ActiveKeys(s), made);
    WrappingsName(s, Active(s, g), made);
    assert user in Active(s, g);
    RekeyNamesEachMemberOnce(s, user, g, ups);
    UploadGives(s, user, g, kv, Active(s, g), made);
    UploadKeepsPeople(s, user, g, kv, ups);
  }

  lemma RotatedStays(s: State, mid: State, t: State, g: Id, made: Key)
    requires g in s.groups && Rotated(s, mid, g, made) && Spares(mid, t, g)
    ensures Rotated(s, t, g, made)
  {
    SparedMissing(mid, t, g);
    forall u | u in Active(s, g)
      ensures Get(t.envs, EnvKey(g, s.groups[g].kv + 1, u)) == Some(Wrapped.Wrapped(s.users[u].pub, made))
    {
      assert EnvKey(g, s.groups[g].kv + 1, u) in mid.envs;
    }
  }

  lemma RotatedReaches(s: State, t: State, g: Id, made: Key, member: Id, deks: map<Slot, Key>, since: int,
                       declared: map<Id, int>, a: PullAnswer, pub: string)
    requires g in s.groups && Rotated(s, t, g, made) && member in Active(s, g) && s.users[member].pub == pub
    requires Answers(t, member, since, None, declared, a) && LearnAll(deks, a.envelopes, pub).1
    requires g in declared ==> declared[g] <= s.groups[g].kv
    ensures Get(LearnAll(deks, a.envelopes, pub).0, Slot(g, s.groups[g].kv + 1)) == Some(made)
  {
    PullTeachesAll(deks, t, member, since, declared, a, pub);
    assert EnvKey(g, s.groups[g].kv + 1, member) in Delivered(t, member, declared);
  }

  // ---- a coordinated round ----

  lemma FullGrows(c: Store, s: State, user: Id, g: Id, fate: Fate, pub: string, a: PullAnswer, d: Store, ok: bool)
    requires FullEnds(c, s, user, g, fate, pub, a, d, ok)
    ensures c.deks.Keys <= d.deks.Keys
  {
    if fate.Works? {
      Learned(c.deks, a.envelopes, pub);
      if ok { ChangesKeepKeys(c.(deks := LearnAll(c.deks, a.envelopes, pub).0), a.changes); }
    }
  }

  lemma RotationGrows(c: Store, s: State, user: Id, st: GroupState, now: int, run: RekeyRun, d: Store, t: State, ok: bool)
    requires RotateEnds(c, s, user, st, now, run, d, t, ok)
    ensures c.deks.Keys <= d.deks.Keys
  {
    if st.pending && HasKey(c, st.id, st.kv) {
      TryKeepsKeys(Keyed(c, st.id, st.kv + 1, run.made), s, user, st, now, run, t, ok);
    }
  }

  lemma GivingGrows(c: Store, s: State, user: Id, st: GroupState, run: WrapRun, d: Store, t: State, ok: bool)
    requires GiveEnds(c, s, user, st, run, d, t, ok)
    ensures c.deks.Keys <= d.deks.Keys
  {
  }

  lemma GroupGrows(c: Store, s: State, user: Id, st: GroupState, pub: string, now: int, tr: GroupTrace, d: Store,
                   t: State, ok: bool)
    requires GroupEnds(c, s, user, st, pub, now, tr, d, t, ok)
    ensures c.deks.Keys <= d.deks.Keys && c.deks.Keys <= tr.full.deks.Keys
    ensures tr.pulled && !st.archived ==> c.deks.Keys <= tr.given.deks.Keys
  {
    if NeedsFull(c.states, st) { FullGrows(c, s, user, st.id, tr.pull, pub, tr.a, tr.full, tr.pulled); }
    if tr.pulled && !st.archived {
      GivingGrows(Noted(tr.full, st), s, user, st, tr.wrap, tr.given, tr.mid, tr.wrapped);
      if tr.wrapped { RotationGrows(tr.given, tr.mid, user, st, now, tr.rekey, d, t, ok); }
    }
  }

  /**
    What a successful coordination does for its group: nobody lacks an envelope, and if a rekey was
    pending and the client had the key, it is committed unless its upload was lost.
   */
  ghost predicate Served(s: State, t: State, st: GroupState, tr: GroupTrace, hadKey: bool)
    requires st.id in s.groups
  {
    && t.members == s.members && t.users == s.users && st.id in t.groups && !t.groups[st.id].archived
    && Missing(t, st.id) == {}
    && (hadKey && st.pending && !tr.rekey.fates.upload.Lost? ==> Rotated(s, t, st.id, tr.rekey.made))
    && (!st.pending || tr.rekey.fates.upload.Lost? ==> t.groups[st.id].kv == s.groups[st.id].kv)
  }

  lemma OwnGroupServed(c: Store, s: State, user: Id, st: GroupState, pub: string, now: int, tr: GroupTrace, d: Store, t: State)
    requires MembersActive(s) && Accurate(s, st) && Member(st.id, user) in s.members
    requires GroupEnds(c, s, user, st, pub, now, tr, d, t, true)
    ensures Served(s, t, st, tr, HasKey(c, st.id, st.kv))
  {
    GroupGrows(c, s, user, st, pub, now, tr, d, t, true);
    GivingCompletes(Noted(tr.full, st), s, user, st, tr.wrap, tr.given, tr.mid);
    GivenServes(c, s, user, st, now, tr, d, t);
  }

  lemma GivenServes(c: Store, s: State, user: Id, st: GroupState, now: int, tr: GroupTrace, d: Store, t: State)
    requires MembersActive(s) && Member(st.id, user) in s.members
    requires st.id in s.groups && !s.groups[st.id].archived && st.kv == s.groups[st.id].kv
    requires st.active == SortedKeys(Active(s, st.id))
    requires tr.mid.groups == s.groups && tr.mid.members == s.members && tr.mid.users == s.users && Missing(tr.mid, st.id) == {}
    requires c.deks.Keys <= tr.given.deks.Keys && RotateEnds(tr.given, tr.mid, user, st, now, tr.rekey, d, t, true)
    ensures Served(s, t, st, tr, HasKey(c, st.id, st.kv))
  {
    SamePeopleActive(s, tr.mid, st.id);
    if st.pending && HasKey(tr.given, st.id, st.kv) {
      RotationCommits(tr.given, tr.mid, user, st, now, tr.rekey, d, t);
      RotationServes(s, tr.mid, t, st, tr, HasKey(c, st.id, st.kv));
    }
  }

  lemma RotationServes(s: State, mid: State, t: State, st: GroupState, tr: GroupTrace, hadKey: bool)
    requires st.id in s.groups && !s.groups[st.id].archived && st.pending
    requires mid.groups == s.groups && mid.members == s.members && mid.users == s.users && Missing(mid, st.id) == {}
    requires if tr.rekey.fates.upload.Lost? then t == mid else Rotated(mid, t, st.id, tr.rekey.made)
    ensures Served(s, t, st, tr, hadKey)
  {
    if !tr.rekey.fates.upload.Lost? { RotatedFrom(s, mid, t, st.id, tr.rekey.made); }
  }

  lemma SamePeopleActive(s: State, t: State, g: Id)
    requires t.members == s.members && t.users == s.users
    ensures Active(t, g) == Active(s, g)
  {
  }

  lemma RotatedFrom(s: State, mid: State, t: State, g: Id, made: Key)
    requires g in s.groups && mid.groups == s.groups && mid.members == s.members && mid.users == s.users
    requires Rotated(mid, t, g, made)
    ensures Rotated(s, t, g, made)
  {
    SamePeopleActive(s, mid, g);
  }

  lemma ServedStays(s: State, mid: State, t: State, st: GroupState, tr: GroupTrace, hadKey: bool)
    requires st.id in s.groups && Served(s, mid, st, tr, hadKey) && Spares(mid, t, st.id)
    ensures Served(s, t, st, tr, hadKey)
  {
    SparedMissing(mid, t, st.id);
    if hadKey && st.pending && !tr.rekey.fates.upload.Lost? { RotatedStays(s, mid, t, st.id, tr.rekey.made); }
  }

  lemma ServedFrom(s: State, mid: State, t: State, st: GroupState, tr: GroupTrace, hadKey: bool, had: bool)
    requires st.id in s.groups && Spares(s, mid, st.id) && Served(mid, t, st, tr, hadKey) && (had ==> hadKey)
    ensures Served(s, t, st, tr, had)
  {
    SamePeopleActive(s, mid, st.id);
  }

  /** The trace of the i-th group. */
  function StepAt(tr: GroupsTrace, i: nat): GroupTrace
    requires i < Handled(tr)
  {
    if i == Handled(tr.before) then tr.step else StepAt(tr.before, i)
  }

  lemma {:induction false} GroupsServe(c: Store, s: State, user: Id, sts: seq<GroupState>, pub: string, now: int,
                                       tr: GroupsTrace, d: Store, t: State, i: nat)
    requires MembersActive(s) && i < |sts| && Accurate(s, sts[i]) && Member(sts[i].id, user) in s.members
    requires DistinctStates(sts) && Coordinated(c, s, user, sts, pub, now, tr, d, t, true)
    ensures c.deks.Keys <= d.deks.Keys
    ensures if Handled(tr) <= i then Spares(s, t, sts[i].id)
            else Served(s, t, sts[i], StepAt(tr, i), HasKey(c, sts[i].id, sts[i].kv))
    decreases tr
  {
    if !tr.Start? {
      GroupsServe(c, s, user, sts, pub, now, tr.before, tr.store, tr.server, i);
      OneGroupServes(c, s, user, sts, pub, now, tr, d, t, i);
    }
  }

  lemma OneGroupServes(c: Store, s: State, user: Id, sts: seq<GroupState>, pub: string, now: int, tr: GroupsTrace,
                       d: Store, t: State, i: nat)
    requires MembersActive(s) && i < |sts| && Accurate(s, sts[i]) && Member(sts[i].id, user) in s.members && DistinctStates(sts)
    requires tr.After? && Handled(tr.before) < |sts| && c.deks.Keys <= tr.store.deks.Keys
    requires GroupEnds(tr.store, tr.server, user, sts[Handled(tr.before)], pub, now, tr.step, d, t, true)
    requires if Handled(tr.before) <= i then Spares(s, tr.server, sts[i].id)
             else Served(s, tr.server, sts[i], StepAt(tr.before, i), HasKey(c, sts[i].id, sts[i].kv))
    ensures c.deks.Keys <= d.deks.Keys
    ensures if Handled(tr) <= i then Spares(s, t, sts[i].id)
            else Served(s, t, sts[i], StepAt(tr, i), HasKey(c, sts[i].id, sts[i].kv))
  {
    var n, st := Handled(tr.before), sts[i];
    GroupGrows(tr.store, tr.server, user, sts[n], pub, now, tr.step, d, t, true);
    if n == i {
      AccurateStays(s, tr.server, st);
      OwnGroupServed(tr.store, tr.server, user, st, pub, now, tr.step, d, t);
      ServedFrom(s, tr.server, t, st, tr.step, HasKey(tr.store, st.id, st.kv), HasKey(c, st.id, st.kv));
    } else {
      OtherGroupSpared(tr.store, tr.server, user, sts[n], pub, now, tr.step, d, t, true, st.id);
      if n < i { SparesThrough(s, tr.server, t, st.id); } else {
        ServedStays(s, tr.server, t, st, StepAt(tr.before, i), HasKey(c, st.id, st.kv));
      }
    }
  }

  /**
    A round that gets through its coordination leaves no member of any of the user's groups without
    an envelope, archived ones aside; and a pending rekey of a group whose key it had after its pull
    is then committed, with an envelope of the new key for every active member, unless the upload
    was lost on its way.
   */
  lemma RoundServesGroups(c: Store, s: State, user: Id, pub: string, now: int, tr: RoundTrace, d: Store, t: State,
                          ok: bool, g: Id)
    returns (i: nat)
    requires Inv(s) && RoundEnds(c, s, user, pub, now, tr, d, t, ok) && PastEnvelopes(c, pub, tr) && tr.coordinated
    requires g in UserGroups(s, user) && !s.groups[g].archived
    ensures i < |tr.a.groups| && i < Handled(tr.groups) && tr.a.groups[i].id == g
    ensures tr.a.groups[i].pending == s.groups[g].pending
    ensures Served(s, t, tr.a.groups[i], StepAt(tr.groups, i),
                   Slot(g, s.groups[g].kv) in LearnAll(c.deks, tr.a.envelopes, pub).0)
  {
    var learned := c.(deks := LearnAll(c.deks, tr.a.envelopes, pub).0);
    StatesAreTrue(s, user, c.lastSeq, tr.declared, tr.a);
    i :| 0 <= i < |tr.a.groups| && tr.a.groups[i].id == g;
    GroupsServe(learned, s, user, tr.a.groups, pub, now, tr.groups, tr.grouped, tr.mid, i);
    FinishSpares(tr.grouped, tr.mid, user, tr.a.changes, tr.a.serverSeq, now, tr.flushed, tr.ids, tr.push, d, t, ok, g);
    ServedStays(s, tr.mid, t, tr.a.groups[i], StepAt(tr.groups, i), HasKey(learned, g, s.groups[g].kv));
  }

  lemma FinishSpares(c: Store, s: State, user: Id, changes: seq<Change>, serverSeq: int, now: int, flushed: seq<Id>,
                     ids: seq<Id>, fate: Fate, d: Store, t: State, ok: bool, g: Id)
    requires g in s.groups && FinishEnds(c, s, user, changes, serverSeq, now, flushed, ids, fate, d, t, ok)
    ensures Spares(s, t, g)
  {
    PushesSpare(s, user, Outgoing(ApplyChanges(Flush(c, c.waiting, flushed), changes), ids), now, g);
  }
}
