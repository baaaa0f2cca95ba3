/** Guarantees of the server over single steps and whole runs. */
module ServerHistory {
  import opened Base
  import opened Wire
  import opened Server
  import opened ServerInvariant

  // ---- splitting runs ----

  lemma {:induction false} RunConcat(s: State, a: seq<Step>, b: seq<Step>)
    ensures Run(s, a + b) == Run(Run(s, a), b)
  {
    if b == [] {
      assert a + b == a;
    } else {
      var n := |b| - 1;
      RunConcat(s, a, b[..n]);
      assert (a + b)[..|a + b| - 1] == a + b[..n];
    }
  }

  lemma RunNext(s: State, steps: seq<Step>, i: nat)
    requires i < |steps|
    ensures Run(s, steps[..i + 1]) == Apply(Run(s, steps[..i]), steps[i])
  {
    assert steps[..i + 1][..i] == steps[..i];
  }

  /** The history only grows: log, groups, their versions, and the envelopes ever granted. */
  ghost predicate Extends(s: State, t: State) {
    && s.log <= t.log
    && s.granted <= t.granted
    && forall g :: g in s.groups ==> g in t.groups && s.groups[g].kv <= t.groups[g].kv
  }

  lemma UploadExtends(s: State, user: Id, g: Id, kv: int, ups: seq<Upload>)
    ensures Extends(s, UploadKeys(s, user, g, kv, ups).0)
  {
  }

  lemma StepExtends(s: State, step: Step)
    ensures Extends(s, Apply(s, step))
  {
    if step.Upload? {
      UploadExtends(s, step.user, step.g, step.kv, step.ups);
    } else if step.Push? {
      PushExtends(s, step.user, step.m, step.now);
    }
  }

  lemma PushExtends(s: State, user: Id, m: Mutation, now: int)
    ensures Extends(s, PushOne(s, user, m, now).0)
  {
  }

  lemma {:induction false} RunExtends(s: State, steps: seq<Step>)
    ensures Extends(s, Run(s, steps))
  {
    if steps != [] {
      var init := steps[..|steps| - 1];
      RunExtends(s, init);
      StepExtends(Run(s, init), steps[|steps| - 1]);
    }
  }

  // ---- optimistic locking ----

  /** At most one accepted write of an entry can name a given previous version. */
  lemma OneWritePerBase(s: State, i: int, j: int)
    requires Inv(s) && 0 <= i < j < |s.log|
    requires s.log[i].m.entry == s.log[j].m.entry && s.log[i].m.base != 0
    ensures s.log[i].m.base != s.log[j].m.base
  {
    assert LinkOk(s.log, i) && LinkOk(s.log, j);
    assert s.log[..j][i] == s.log[i];
  }

  /** The write belongs to the stretch of history from `from` on, or to an entry that was stored at its start. */
  predicate InStretch(log: seq<Commit>, from: nat, kept: set<Id>, i: int)
    requires 0 <= i < |log|
  {
    from <= i || log[i].m.entry in kept
  }

  /** In a stretch without cleanups no entry disappears, and only an entry's first write has base 0. */
  ghost predicate Unbroken(s: State, from: nat, kept: set<Id>) {
    && (forall i :: 0 <= i < |s.log| && InStretch(s.log, from, kept, i) ==> s.log[i].m.entry in s.entries)
    && (kept <= s.entries.Keys)
    && (forall i, j :: 0 <= i < j < |s.log| && from <= j && InStretch(s.log, from, kept, i) ==>
          s.log[i].m.entry == s.log[j].m.entry ==> s.log[j].m.base != 0)
  }

  lemma StepUnbroken(s: State, step: Step, from: nat, kept: set<Id>)
    requires Inv(s) && Unbroken(s, from, kept) && !step.DoClean?
    ensures Unbroken(Apply(s, step), from, kept)
  {
    if step.Push? {
      if Accepts(s, step.user, step.m) { UpsertUnbroken(s, step.user, step.m, step.now, from, kept); }
    } else {
      OtherStepsKeepEntries(s, step);
    }
  }

  lemma UpsertUnbroken(s: State, user: Id, m: Mutation, now: int, from: nat, kept: set<Id>)
    requires Inv(s) && Unbroken(s, from, kept) && Accepts(s, user, m)
    ensures Unbroken(PushOne(s, user, m, now).0, from, kept)
  {
    var t := Upsert(s, m, now);
    forall i | 0 <= i < |s.log| ensures t.log[i] == s.log[i] && (InStretch(t.log, from, kept, i) <==> InStretch(s.log, from, kept, i)) {
    }
    forall i, j | 0 <= i < j < |t.log| && from <= j && InStretch(t.log, from, kept, i)
                  && t.log[i].m.entry == t.log[j].m.entry
      ensures t.log[j].m.base != 0
    {
      assert InStretch(s.log, from, kept, i);
      if j == |s.log| { assert m.entry in s.entries && Latest(s.log, s.entries[m.entry].seqNo - 1); }
    }
  }

  lemma {:induction false} RunUnbroken(s: State, steps: seq<Step>)
    requires Inv(s) && forall i :: 0 <= i < |steps| ==> !steps[i].DoClean?
    ensures Inv(Run(s, steps)) && Unbroken(Run(s, steps), |s.log|, s.entries.Keys)
  {
    if steps != [] {
      var init := steps[..|steps| - 1];
      RunUnbroken(s, init);
      StepUnbroken(Run(s, init), steps[|steps| - 1], |s.log|, s.entries.Keys);
      StepKeepsInv(Run(s, init), steps[|steps| - 1]);
    }
  }

  /** Write j is based on the previous write of its entry. */
  ghost predicate Continues(log: seq<Commit>, j: int)
    requires 0 <= j < |log|
  {
    var base := log[j].m.base;
    && 1 <= base <= j && Latest(log[..j], base - 1)
    && log[base - 1].m.entry == log[j].m.entry && log[base - 1].row.seqNo == base
  }

  lemma LinkedWrite(s: State, from: nat, kept: set<Id>, i: int, j: int)
    requires LogInv(s) && Unbroken(s, from, kept) && 0 <= i < j < |s.log| && from <= j
    requires InStretch(s.log, from, kept, i) && s.log[i].m.entry == s.log[j].m.entry
    ensures Continues(s.log, j)
  {
    assert LinkOk(s.log, j);
    assert s.log[..j][i] == s.log[i];
  }

  /**
    Between physical cleanups each write names exactly the sequence number of the entry's previous
    write.  `before` is any run; during `steps` nothing is cleaned.  The earlier write i is one of
    the stretch, or one of an entry still stored when the stretch began.
   */
  lemma WritesFormChain(before: seq<Step>, steps: seq<Step>, i: int, j: int)
    requires forall n :: 0 <= n < |steps| ==> !steps[n].DoClean?
    requires var s, t := Run(EMPTY_STATE, before), Run(EMPTY_STATE, before + steps);
      0 <= i < j < |t.log| && |s.log| <= j && t.log[i].m.entry == t.log[j].m.entry
      && InStretch(t.log, |s.log|, s.entries.Keys, i)
    ensures Continues(Run(EMPTY_STATE, before + steps).log, j)
  {
    var s := Run(EMPTY_STATE, before);
    ReachableInv(before);
    RunConcat(EMPTY_STATE, before, steps);
    RunUnbroken(s, steps);
    LinkedWrite(Run(s, steps), |s.log|, s.entries.Keys, i, j);
  }

  lemma {:induction false} BatchInv(s: State, user: Id, ms: seq<Mutation>, now: int)
    requires Inv(s)
    ensures |PushAll(s, user, ms, now).1| == |ms| && Inv(PushAll(s, user, ms, now).0)
    ensures Extends(s, PushAll(s, user, ms, now).0)
  {
    if ms != [] {
      var n := |ms| - 1;
      BatchInv(s, user, ms[..n], now);
      var mid := PushAll(s, user, ms[..n], now).0;
      StepKeepsInv(mid, Push(user, ms[n], now));
      PushExtends(mid, user, ms[n], now);
    }
  }

  lemma {:induction false} BatchAt(s: State, user: Id, ms: seq<Mutation>, now: int, i: nat)
    requires i < |ms|
    ensures |PushAll(s, user, ms, now).1| == |ms|
    ensures PushAll(s, user, ms, now).1[i] == PushOne(PushAll(s, user, ms[..i], now).0, user, ms[i], now).1
  {
    var n := |ms| - 1;
    if i < n {
      BatchAt(s, user, ms[..n], now, i);
      assert ms[..n][..i] == ms[..i];
    } else if n > 0 {
      BatchAt(s, user, ms[..n], now, 0);
    }
  }

  lemma {:induction false} BatchExtendsPrefix(s: State, user: Id, ms: seq<Mutation>, now: int, i: nat)
    requires i <= |ms|
    ensures PushAll(s, user, ms[..i], now).0.log <= PushAll(s, user, ms, now).0.log
  {
    if i == |ms| {
      TakeAll(ms, i);
    } else {
      var n := |ms| - 1;
      BatchExtendsPrefix(s, user, ms[..n], now, i);
      assert ms[..n][..i] == ms[..i];
      PushExtends(PushAll(s, user, ms[..n], now).0, user, ms[n], now);
    }
  }

  /**
    A batch is its mutations one after the other: a refused one leaves the state as it was, an
    accepted one answers with the sequence number under which the log keeps its row for good.
   */
  lemma BatchResults(s: State, user: Id, ms: seq<Mutation>, now: int, i: nat)
    requires Inv(s) && i < |ms|
    ensures |PushAll(s, user, ms, now).1| == |ms|
    ensures ResultOk(PushAll(s, user, ms, now).0.log, ms[i], PushAll(s, user, ms, now).1[i])
    ensures PushAll(s, user, ms, now).1[i].Refused? ==>
            PushAll(s, user, ms[..i + 1], now).0 == PushAll(s, user, ms[..i], now).0
  {
    var mid := PushAll(s, user, ms[..i], now).0;
    BatchInv(s, user, ms[..i], now);
    BatchAt(s, user, ms, now, i);
    assert ms[..i + 1][..i] == ms[..i];
    assert PushAll(s, user, ms[..i + 1], now).0 == PushOne(mid, user, ms[i], now).0;
    PushResultOk(mid, user, ms[i], now);
    BatchExtendsPrefix(s, user, ms, now, i + 1);
    ResultOkLater(PushOne(mid, user, ms[i], now).0.log, PushAll(s, user, ms, now).0.log, ms[i],
                  PushAll(s, user, ms, now).1[i]);
  }

  /** A change that reports what the log holds at its sequence number. */
  ghost predicate Genuine(log: seq<Commit>, c: Change) {
    1 <= c.seqNo <= |log| && var e := log[c.seqNo - 1];
      e.m.entry == c.entry && c == AsChange(c.entry, e.row)
  }

  ghost predicate ResultOk(log: seq<Commit>, m: Mutation, r: PushResult) {
    r.entry == m.entry &&
    match r
    case Accepted(_, newSeq) => 1 <= newSeq <= |log| && log[newSeq - 1].m == m && log[newSeq - 1].row.seqNo == newSeq
                                && log[newSeq - 1].row.ct == m.ct && log[newSeq - 1].row.deleted == m.deleted
    case Refused(_, code, current) =>
      (code == ERR_CONFLICT <==> current.Some?) &&
      (current.Some? ==> current.value.entry == m.entry && Genuine(log, current.value))
  }

  lemma PushResultOk(s: State, user: Id, m: Mutation, now: int)
    requires Inv(s)
    ensures ResultOk(PushOne(s, user, m, now).0.log, m, PushOne(s, user, m, now).1)
  {
    if m.entry in s.entries { assert Latest(s.log, s.entries[m.entry].seqNo - 1); }
  }

  lemma GenuineLater(early: seq<Commit>, late: seq<Commit>, c: Change)
    requires early <= late && Genuine(early, c)
    ensures Genuine(late, c)
  {
    assert late[c.seqNo - 1] == early[c.seqNo - 1];
  }

  lemma ResultOkLater(early: seq<Commit>, late: seq<Commit>, m: Mutation, r: PushResult)
    requires early <= late && ResultOk(early, m, r)
    ensures ResultOk(late, m, r)
  {
    if r.Accepted? {
      assert late[r.newSeq - 1] == early[r.newSeq - 1];
    } else if r.current.Some? {
      GenuineLater(early, late, r.current.value);
    }
  }

  // ---- envelopes ----

  /** Across any step an envelope that stays keeps its value. */
  lemma EnvelopesNeverOverwritten(s: State, step: Step, k: EnvKey)
    requires Inv(s) && k in s.envs && k in Apply(s, step).envs
    ensures Apply(s, step).envs[k] == s.envs[k]
  {
    if step.Upload? {
      UploadNeverOverwrites(s, step.user, step.g, step.kv, step.ups, k);
    }
  }

  lemma UploadNeverOverwrites(s: State, user: Id, g: Id, kv: int, ups: seq<Upload>, k: EnvKey)
    requires Inv(s) && k in s.envs && k in UploadKeys(s, user, g, kv, ups).0.envs
    ensures UploadKeys(s, user, g, kv, ups).0.envs[k] == s.envs[k]
  {
    if UploadKeys(s, user, g, kv, ups).1 == 0 {
      forall i | 0 <= i < |ups| ensures k != EnvKey(g, kv, ups[i].user) {
      }
      InsertedOthers(s.envs, g, kv, ups, k);
      InsertedOthers(DropKV(s.envs, g, kv), g, kv, ups, k);
    }
  }

  predicate CutsAccess(step: Step) {
    step.DoRevoke? || step.DoRemoveMember? || step.DoKeyfileReset?
  }

  /**
    Crash safety of old keys: apart from cutting someone off, no step deletes an envelope while a
    live entry of its group is still encrypted at that version.
   */
  lemma OldKeysKept(s: State, step: Step, k: EnvKey, id: Id)
    requires Inv(s) && !CutsAccess(step)
    requires k in s.envs && k !in Apply(s, step).envs
    requires id in Apply(s, step).entries && !Apply(s, step).entries[id].deleted
    ensures !(Apply(s, step).entries[id].group == k.group && Apply(s, step).entries[id].kv == k.kv)
  {
    if step.Upload? {
      UploadKeepsOldKeys(s, step.user, step.g, step.kv, step.ups, k, id);
    } else if step.Push? {
      var t := Upsert(s, step.m, step.now);
      assert Below(t.entries, step.m.group, step.m.kv) == {};
      assert id !in Below(t.entries, step.m.group, step.m.kv);
    }
  }

  lemma UploadKeepsOldKeys(s: State, user: Id, g: Id, kv: int, ups: seq<Upload>, k: EnvKey, id: Id)
    requires Inv(s) && k in s.envs && k !in UploadKeys(s, user, g, kv, ups).0.envs
    requires id in s.entries && !s.entries[id].deleted
    ensures !(s.entries[id].group == k.group && s.entries[id].kv == k.kv)
  {
    if kv == s.groups[g].kv {
      InsertedKeys(s.envs, g, kv, ups);
    } else {
      InsertedKeys(DropKV(s.envs, g, kv), g, kv, ups);
      assert k in DropKV(s.envs, g, kv);
      assert Below(s.entries, g, kv) == {};
      assert id !in Below(s.entries, g, kv);
    }
  }

  // ---- uploads name the right people ----

  lemma UsersSnoc(ups: seq<Upload>)
    requires ups != []
    ensures UploadUsers(ups) == UploadUsers(ups[..|ups| - 1]) + {ups[|ups| - 1].user}
  {
    var n := |ups| - 1;
    forall u | u in UploadUsers(ups) ensures u in UploadUsers(ups[..n]) + {ups[n].user} {
      var i :| 0 <= i < |ups| && ups[i].user == u;
      if i < n { assert ups[..n][i].user == u; }
    }
    forall u | u in UploadUsers(ups[..n]) ensures u in UploadUsers(ups) {
      var i :| 0 <= i < n && ups[..n][i].user == u;
      assert ups[i].user == u;
    }
  }

  lemma DistinctSnoc(ups: seq<Upload>)
    requires ups != []
    ensures DistinctUsers(ups) <==>
            DistinctUsers(ups[..|ups| - 1]) && ups[|ups| - 1].user !in UploadUsers(ups[..|ups| - 1])
  {
    var n := |ups| - 1;
    if ups[n].user in UploadUsers(ups[..n]) {
      var i :| 0 <= i < n && ups[..n][i].user == ups[n].user;
      assert ups[i].user == ups[n].user;
    } else {
      forall i | 0 <= i < n ensures ups[i].user != ups[n].user { assert ups[..n][i].user in UploadUsers(ups[..n]); }
    }
    if DistinctUsers(ups) {
      assert forall i :: 0 <= i < n ==> ups[..n][i] == ups[i];
    }
    if DistinctUsers(ups[..n]) {
      forall i, j | 0 <= i < j < n ensures ups[i].user != ups[j].user {
        assert ups[..n][i].user != ups[..n][j].user;
      }
    }
  }

  /** An upload names as many users as it has envelopes exactly when no user is named twice. */
  lemma {:induction false} CountUsers(ups: seq<Upload>)
    ensures |UploadUsers(ups)| <= |ups|
    ensures |UploadUsers(ups)| == |ups| <==> DistinctUsers(ups)
  {
    if ups != [] {
      CountUsers(ups[..|ups| - 1]);
      UsersSnoc(ups);
      DistinctSnoc(ups);
    }
  }

  /** A rekey is accepted exactly when it names every active member once; then nobody lacks an envelope. */
  lemma RekeyNamesEachMemberOnce(s: State, user: Id, g: Id, ups: seq<Upload>)
    requires g in s.groups && Member(g, user) in s.members && !s.groups[g].archived
    ensures var (t, code) := UploadKeys(s, user, g, s.groups[g].kv + 1, ups);
      && (code == 0 <==> DistinctUsers(ups) && UploadUsers(ups) == Active(s, g))
      && (code == 0 ==> t.groups[g].kv == s.groups[g].kv + 1 && Missing(t, g) == {})
      && (code != 0 ==> t == s)
  {
    CountUsers(ups);
    var kv := s.groups[g].kv + 1;
    var (t, code) := UploadKeys(s, user, g, kv, ups);
    if UploadUsers(ups) <= Active(s, g) <= UploadUsers(ups) {
      assert UploadUsers(ups) == Active(s, g);
    }
    if code == 0 {
      InsertedKeys(DropKV(s.envs, g, kv), g, kv, ups);
      forall u | u in Active(t, g) ensures EnvKey(g, kv, u) in t.envs {
        assert u in UploadUsers(ups);
        var i :| 0 <= i < |ups| && ups[i].user == u;
        assert EnvKey(g, kv, ups[i].user) in EnvKeys(g, kv, ups);
      }
    }
  }

  /** What auto-wrap uploads, one envelope for each missing member, is accepted and completes the group. */
  lemma WrappingMissingCompletes(s: State, user: Id, g: Id, ups: seq<Upload>)
    requires g in s.groups && Member(g, user) in s.members && !s.groups[g].archived
    requires DistinctUsers(ups) && UploadUsers(ups) == Missing(s, g)
    ensures var (t, code) := UploadKeys(s, user, g, s.groups[g].kv, ups);
      code == 0 && Missing(t, g) == {} && (forall k :: k in s.envs ==> k in t.envs)
  {
    var kv := s.groups[g].kv;
    var (t, code) := UploadKeys(s, user, g, kv, ups);
    forall i | 0 <= i < |ups| ensures EnvKey(g, kv, ups[i].user) !in s.envs {
      assert ups[i].user in UploadUsers(ups);
    }
    InsertedKeys(s.envs, g, kv, ups);
    forall u | u in Active(t, g) ensures EnvKey(g, kv, u) in t.envs {
      if EnvKey(g, kv, u) !in s.envs {
        assert u in UploadUsers(ups);
        var i :| 0 <= i < |ups| && ups[i].user == u;
        assert EnvKey(g, kv, ups[i].user) in EnvKeys(g, kv, ups);
      }
    }
  }

  // ---- a removed user reads nothing written later ----

  /** The step takes the user out of the group. */
  predicate Removes(s: State, step: Step, g: Id, u: Id) {
    u in s.users &&
    ((step.DoRemoveMember? && step.g == g && step.uid == u && step.confirm == s.users[u].name) ||
     (step.DoRevoke? && step.uid == u && step.confirm == s.users[u].name))
  }

  predicate Readmits(step: Step, g: Id, u: Id) {
    step.DoAddMember? && step.g == g && step.uid == u
  }

  lemma RemovalTakesEffect(s: State, step: Step, g: Id, u: Id)
    requires Inv(s) && g in s.groups && Removes(s, step, g, u)
    ensures g in Apply(s, step).groups && Member(g, u) !in Apply(s, step).members
    ensures Apply(s, step).groups[g].kv == s.groups[g].kv
  {
    if step.DoRevoke? && Member(g, u) in s.members { assert g in UserGroups(s, u); }
  }

  lemma UploadGrantsMembers(s: State, user: Id, g: Id, kv: int, ups: seq<Upload>, k: EnvKey)
    requires k in UploadKeys(s, user, g, kv, ups).0.granted && k !in s.granted
    ensures Member(k.group, k.user) in s.members
  {
    var i :| 0 <= i < |ups| && k == EnvKey(g, kv, ups[i].user);
    assert ups[i].user in UploadUsers(ups);
  }

  lemma StepNeverGrants(s: State, step: Step, g: Id, u: Id)
    requires g in s.groups && Member(g, u) !in s.members && !Readmits(step, g, u)
    ensures g in Apply(s, step).groups && Member(g, u) !in Apply(s, step).members
    ensures forall kv :: EnvKey(g, kv, u) in Apply(s, step).granted ==> EnvKey(g, kv, u) in s.granted
  {
    if step.Upload? {
      forall kv | EnvKey(g, kv, u) in Apply(s, step).granted ensures EnvKey(g, kv, u) in s.granted {
        if EnvKey(g, kv, u) !in s.granted {
          UploadGrantsMembers(s, step.user, step.g, step.kv, step.ups, EnvKey(g, kv, u));
        }
      }
    }
  }

  lemma {:induction false} RunNeverGrants(s: State, steps: seq<Step>, g: Id, u: Id)
    requires g in s.groups && Member(g, u) !in s.members
    requires forall i :: 0 <= i < |steps| ==> !Readmits(steps[i], g, u)
    ensures g in Run(s, steps).groups && Member(g, u) !in Run(s, steps).members
    ensures forall kv :: EnvKey(g, kv, u) in Run(s, steps).granted ==> EnvKey(g, kv, u) in s.granted
  {
    if steps != [] {
      var init := steps[..|steps| - 1];
      RunNeverGrants(s, init, g, u);
      StepNeverGrants(Run(s, init), steps[|steps| - 1], g, u);
    }
  }

  /** A mutation naming the group is accepted in this state. */
  predicate AcceptedPush(s: State, step: Step, g: Id) {
    step.Push? && step.m.group == g && Accepts(s, step.user, step.m)
  }

  lemma VersionsGrow(s: State, steps: seq<Step>, j: nat, i: nat, g: Id)
    requires j <= i <= |steps| && g in s.groups
    ensures g in Run(s, steps[..j]).groups && g in Run(s, steps[..i]).groups
    ensures Run(s, steps[..j]).groups[g].kv <= Run(s, steps[..i]).groups[g].kv
  {
    assert steps[..j] + steps[j..i] == steps[..i];
    RunConcat(s, steps[..j], steps[j..i]);
    RunExtends(s, steps[..j]);
    RunExtends(Run(s, steps[..j]), steps[j..i]);
  }

  /**
    Forward secrecy over runs.  A user is removed from a group and not readmitted.  Over the whole
    run, past and future, that user is never given an envelope above the version the group had at the
    removal, and every accepted mutation naming the group carries at least every version committed
    before it.
   */
  lemma RemovedUserIsSealedOff(s: State, removal: Step, steps: seq<Step>, g: Id, u: Id)
    requires Inv(s) && g in s.groups && Removes(s, removal, g, u)
    requires forall j :: 0 <= j < |steps| ==> !Readmits(steps[j], g, u)
    ensures forall kv :: kv > s.groups[g].kv ==> EnvKey(g, kv, u) !in Run(Apply(s, removal), steps).granted
    ensures forall i, j :: 0 <= j <= i < |steps| && AcceptedPush(Run(Apply(s, removal), steps[..i]), steps[i], g) ==>
      g in Run(Apply(s, removal), steps[..j]).groups &&
      Run(Apply(s, removal), steps[..j]).groups[g].kv <= steps[i].m.kv
  {
    var r := Apply(s, removal);
    StepKeepsInv(s, removal);
    RemovalTakesEffect(s, removal, g, u);
    RunNeverGrants(r, steps, g, u);
    PushesKeepUp(r, steps, g);
  }

  lemma PushesKeepUp(s: State, steps: seq<Step>, g: Id)
    requires g in s.groups
    ensures forall i, j :: 0 <= j <= i < |steps| && AcceptedPush(Run(s, steps[..i]), steps[i], g) ==>
      g in Run(s, steps[..j]).groups && Run(s, steps[..j]).groups[g].kv <= steps[i].m.kv
  {
    forall i, j | 0 <= j <= i < |steps| && AcceptedPush(Run(s, steps[..i]), steps[i], g)
      ensures g in Run(s, steps[..j]).groups && Run(s, steps[..j]).groups[g].kv <= steps[i].m.kv
    {
      VersionsGrow(s, steps, j, i, g);
    }
  }
}
