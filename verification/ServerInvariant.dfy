/** What every operation of the server keeps, and so what holds in every reachable state. */
module ServerInvariant {
  import opened Base
  import opened Wire
  import opened Server

  // ---- the log of accepted writes ----

  /** Sequence numbers are handed out one by one, and a row holds what its mutation brought. */
  ghost predicate Numbered(log: seq<Commit>) {
    forall i :: 0 <= i < |log| ==>
      var c := log[i];
      c.row.seqNo == i + 1 && c.row.kv == c.m.kv && c.row.ct == c.m.ct && c.row.deleted == c.m.deleted
  }

  /** Commit i is the latest one for its entry. */
  ghost predicate Latest(log: seq<Commit>, i: int) {
    0 <= i < |log| && forall j :: i < j < |log| ==> log[j].m.entry != log[i].m.entry
  }

  /** A stored row is the latest commit of its entry. */
  ghost predicate Stored(s: State) {
    forall id :: id in s.entries ==>
      var i := s.entries[id].seqNo - 1;
      Latest(s.log, i) && s.log[i].m.entry == id && s.log[i].row == s.entries[id]
  }

  /** An entry whose row is gone was last written as a tombstone. */
  ghost predicate OnlyTombstonesGo(s: State) {
    forall i :: Latest(s.log, i) && s.log[i].m.entry !in s.entries ==> s.log[i].row.deleted
  }

  /**
    Each entry's writes form a chain: a write names the previous write of its entry as its base, or
    it names none and the previous write, if any, was a tombstone.
   */
  ghost predicate LinkOk(log: seq<Commit>, j: int)
    requires 0 <= j < |log|
  {
    var m := log[j].m;
    if m.base != 0 then Latest(log[..j], m.base - 1) && log[m.base - 1].m.entry == m.entry
    else forall i :: Latest(log[..j], i) && log[i].m.entry == m.entry ==> log[i].row.deleted
  }

  ghost predicate Chained(log: seq<Commit>) {
    forall j :: 0 <= j < |log| ==> LinkOk(log, j)
  }

  ghost predicate LogInv(s: State) {
    |s.log| == s.seqNo && Numbered(s.log) && Stored(s) && OnlyTombstonesGo(s) && Chained(s.log)
  }

  // ---- envelopes and membership ----

  ghost predicate MembersOk(s: State) {
    forall m :: m in s.members ==> m.group in s.groups && m.user in s.users && s.users[m.user].active
  }

  /** An envelope belongs to an active member and is not ahead of its group. */
  ghost predicate EnvelopesOk(s: State) {
    forall k :: k in s.envs ==>
      k.group in s.groups && k.kv <= s.groups[k.group].kv && Member(k.group, k.user) in s.members
  }

  ghost predicate GrantsOk(s: State) {
    && (forall k :: k in s.envs ==> k in s.granted)
    && forall k :: k in s.granted ==> k.group in s.groups && k.kv <= s.groups[k.group].kv
  }

  ghost predicate GroupsOk(s: State) {
    && (forall g :: g in s.groups ==> 1 <= s.groups[g].kv)
    && forall id :: id in s.entries ==> s.entries[id].group in s.groups
  }

  ghost predicate KeyInv(s: State) {
    MembersOk(s) && EnvelopesOk(s) && GrantsOk(s) && GroupsOk(s)
  }

  ghost predicate Inv(s: State) { LogInv(s) && KeyInv(s) }

  // ---- the log under each step ----

  lemma LatestSnoc(log: seq<Commit>, c: Commit, i: int)
    ensures Latest(log + [c], i) <==>
            i == |log| || (Latest(log, i) && log[i].m.entry != c.m.entry)
  {
    var l := log + [c];
    if 0 <= i < |log| {
      assert l[i] == log[i] && l[|log|] == c;
      if Latest(l, i) {
        forall j | i < j < |log| ensures log[j].m.entry != log[i].m.entry { assert l[j] == log[j]; }
      }
      if Latest(log, i) && log[i].m.entry != c.m.entry {
        forall j | i < j < |l| ensures l[j].m.entry != l[i].m.entry {
          if j < |log| { assert l[j] == log[j]; }
        }
      }
    }
  }

  lemma LinkSnoc(log: seq<Commit>, c: Commit, j: int)
    requires 0 <= j < |log| && LinkOk(log, j)
    ensures LinkOk(log + [c], j)
  {
    assert (log + [c])[..j] == log[..j];
  }

  lemma UpsertStored(s: State, m: Mutation, now: int)
    requires |s.log| == s.seqNo && Stored(s)
    ensures Stored(Upsert(s, m, now))
  {
    var t, c := Upsert(s, m, now), Commit(m, StoredRow(s, m, now));
    forall id | id in t.entries
      ensures var i := t.entries[id].seqNo - 1;
        Latest(t.log, i) && t.log[i].m.entry == id && t.log[i].row == t.entries[id]
    {
      LatestSnoc(s.log, c, t.entries[id].seqNo - 1);
      if id != m.entry { assert t.log[t.entries[id].seqNo - 1] == s.log[s.entries[id].seqNo - 1]; }
    }
  }

  lemma UpsertTombstones(s: State, m: Mutation, now: int)
    requires OnlyTombstonesGo(s)
    ensures OnlyTombstonesGo(Upsert(s, m, now))
  {
    var t, c := Upsert(s, m, now), Commit(m, StoredRow(s, m, now));
    forall i | Latest(t.log, i) && t.log[i].m.entry !in t.entries ensures t.log[i].row.deleted {
      LatestSnoc(s.log, c, i);
      assert i < |s.log| && t.log[i] == s.log[i];
    }
  }

  lemma UpsertChained(s: State, user: Id, m: Mutation, now: int)
    requires LogInv(s) && Accepts(s, user, m)
    ensures Chained(Upsert(s, m, now).log)
  {
    var c := Commit(m, StoredRow(s, m, now));
    var log := s.log + [c];
    forall j | 0 <= j < |log| ensures LinkOk(log, j) {
      if j < |s.log| { LinkSnoc(s.log, c, j); } else { assert log[..j] == s.log && log[j] == c; }
    }
  }

  lemma UpsertKeepsLog(s: State, user: Id, m: Mutation, now: int)
    requires LogInv(s) && Accepts(s, user, m)
    ensures LogInv(Upsert(s, m, now))
  {
    UpsertStored(s, m, now);
    UpsertTombstones(s, m, now);
    UpsertChained(s, user, m, now);
  }

  lemma CleanKeepsLog(s: State, before: int)
    requires LogInv(s)
    ensures LogInv(CleanTombstones(s, before))
  {
    CleanDropsTombstones(s, before);
    assert Stored(CleanTombstones(s, before));
  }

  lemma CleanDropsTombstones(s: State, before: int)
    requires Stored(s) && OnlyTombstonesGo(s)
    ensures OnlyTombstonesGo(CleanTombstones(s, before))
  {
    var t := CleanTombstones(s, before);
    forall i | Latest(t.log, i) && t.log[i].m.entry !in t.entries ensures t.log[i].row.deleted {
      var id := t.log[i].m.entry;
      if id in s.entries {
        LatestUnique(s.log, i, s.entries[id].seqNo - 1);
        assert s.log[i].row == s.entries[id];
      }
    }
  }

  lemma LatestUnique(log: seq<Commit>, i: int, j: int)
    requires Latest(log, i) && Latest(log, j) && log[i].m.entry == log[j].m.entry
    ensures i == j
  {
  }

  /** Only pushes and the cleaner touch rows and log. */
  lemma OtherStepsKeepEntries(s: State, step: Step)
    requires !step.Push? && !step.DoClean?
    ensures Apply(s, step).entries == s.entries && Apply(s, step).log == s.log && Apply(s, step).seqNo == s.seqNo
  {
  }

  lemma LogInvDepends(s: State, t: State)
    requires LogInv(s) && t.entries == s.entries && t.log == s.log && t.seqNo == s.seqNo
    ensures LogInv(t)
  {
    assert Stored(t) && OnlyTombstonesGo(t);
  }

  lemma PushKeepsLog(s: State, user: Id, m: Mutation, now: int)
    requires LogInv(s)
    ensures LogInv(PushOne(s, user, m, now).0)
  {
    if Accepts(s, user, m) { UpsertKeepsLog(s, user, m, now); }
  }

  lemma StepKeepsLog(s: State, step: Step)
    requires LogInv(s)
    ensures LogInv(Apply(s, step))
  {
    if step.Push? {
      PushKeepsLog(s, step.user, step.m, step.now);
    } else if step.DoClean? {
      CleanKeepsLog(s, step.before);
    } else {
      OtherStepsKeepEntries(s, step);
      LogInvDepends(s, Apply(s, step));
    }
  }

  // ---- keys under each step ----

  lemma {:induction false} InsertedKeys(envs: Envelopes, g: Id, kv: int, ups: seq<Upload>)
    ensures InsertEnvs(envs, g, kv, ups).Keys == envs.Keys + EnvKeys(g, kv, ups)
  {
    if ups != [] {
      var n := |ups| - 1;
      InsertedKeys(envs, g, kv, ups[..n]);
      forall k | k in EnvKeys(g, kv, ups) ensures k in EnvKeys(g, kv, ups[..n]) || k == EnvKey(g, kv, ups[n].user) {
        var i :| 0 <= i < |ups| && k == EnvKey(g, kv, ups[i].user);
        if i < n { assert ups[..n][i] == ups[i]; }
      }
      forall k | k in EnvKeys(g, kv, ups[..n]) ensures k in EnvKeys(g, kv, ups) {
        var i :| 0 <= i < n && k == EnvKey(g, kv, ups[..n][i].user);
        assert ups[i] == ups[..n][i];
      }
    }
  }

  lemma {:induction false} InsertedOthers(envs: Envelopes, g: Id, kv: int, ups: seq<Upload>, k: EnvKey)
    requires k !in EnvKeys(g, kv, ups)
    ensures Get(InsertEnvs(envs, g, kv, ups), k) == Get(envs, k)
  {
    if ups != [] {
      var n := |ups| - 1;
      forall i | 0 <= i < n ensures k != EnvKey(g, kv, ups[..n][i].user) { assert ups[..n][i] == ups[i]; }
      InsertedOthers(envs, g, kv, ups[..n], k);
    }
  }

  lemma AppendKeepsKeys(s: State, g: Id, kv: int, ups: seq<Upload>)
    requires KeyInv(s) && g in s.groups && kv == s.groups[g].kv && UploadUsers(ups) <= Active(s, g)
    ensures KeyInv(AppendEnvelopes(s, g, kv, ups).0)
  {
    InsertedKeys(s.envs, g, kv, ups);
    EnvKeysOfMembers(s, g, kv, ups);
  }

  lemma EnvKeysOfMembers(s: State, g: Id, kv: int, ups: seq<Upload>)
    requires UploadUsers(ups) <= Active(s, g)
    ensures forall k :: k in EnvKeys(g, kv, ups) ==> k.group == g && k.kv == kv && Member(g, k.user) in s.members
  {
    forall k | k in EnvKeys(g, kv, ups) ensures k.group == g && k.kv == kv && Member(g, k.user) in s.members {
      var i :| 0 <= i < |ups| && k == EnvKey(g, kv, ups[i].user);
      assert ups[i].user in UploadUsers(ups);
    }
  }

  lemma FinishKeepsKeys(s: State, g: Id, kv: int)
    requires KeyInv(s)
    ensures KeyInv(FinishRekey(s, g, kv))
  {
  }

  lemma CommitKeepsKeys(s: State, g: Id, kv: int, ups: seq<Upload>)
    requires KeyInv(s) && g in s.groups && kv == s.groups[g].kv + 1 && UploadUsers(ups) <= Active(s, g)
    ensures KeyInv(CommitRekey(s, g, kv, ups).0)
  {
    if DistinctUsers(ups) {
      var envs := InsertEnvs(DropKV(s.envs, g, kv), g, kv, ups);
      var raised := s.(envs := envs, groups := s.groups[g := s.groups[g].(kv := kv)],
                       granted := s.granted + EnvKeys(g, kv, ups));
      InsertedKeys(DropKV(s.envs, g, kv), g, kv, ups);
      EnvKeysOfMembers(s, g, kv, ups);
      assert KeyInv(raised);
      FinishKeepsKeys(raised, g, kv);
    }
  }

  lemma UploadKeepsKeys(s: State, user: Id, g: Id, kv: int, ups: seq<Upload>)
    requires KeyInv(s)
    ensures KeyInv(UploadKeys(s, user, g, kv, ups).0)
  {
    if g in s.groups && UploadUsers(ups) <= Active(s, g) {
      if kv == s.groups[g].kv { AppendKeepsKeys(s, g, kv, ups); }
      if kv == s.groups[g].kv + 1 { CommitKeepsKeys(s, g, kv, ups); }
    }
  }

  lemma PushKeepsKeys(s: State, user: Id, m: Mutation, now: int)
    requires KeyInv(s)
    ensures KeyInv(PushOne(s, user, m, now).0)
  {
    if Accepts(s, user, m) {
      var t := Upsert(s, m, now);
      assert KeyInv(t);
      FinishKeepsKeys(t, m.group, m.kv);
    }
  }

  lemma RevokeKeepsKeys(s: State, uid: Id, confirm: string)
    requires KeyInv(s)
    ensures KeyInv(Revoke(s, uid, confirm))
  {
    var t := Revoke(s, uid, confirm);
    if uid in s.users && confirm == s.users[uid].name {
      forall m | m in t.members ensures m.group in t.groups && m.user in t.users && t.users[m.user].active {
        assert m in s.members && m.group in UserGroups(s, m.user);
      }
      forall k | k in t.envs ensures Member(k.group, k.user) in t.members {
        assert k in s.envs && k.user != uid;
      }
    }
  }

  lemma RemoveKeepsKeys(s: State, g: Id, u: Id, confirm: string)
    requires KeyInv(s)
    ensures KeyInv(RemoveMember(s, g, u, confirm))
  {
    var t := RemoveMember(s, g, u, confirm);
    forall k | k in t.envs ensures Member(k.group, k.user) in t.members {
      assert k in s.envs;
    }
  }

  lemma CreateKeepsKeys(s: State, g: Id, name: string, caller: Id)
    requires KeyInv(s)
    ensures KeyInv(CreateGroup(s, g, name, caller))
  {
  }

  lemma ResetKeepsKeys(s: State, uid: Id, pub: string, attested: bool)
    requires KeyInv(s)
    ensures KeyInv(KeyfileReset(s, uid, pub, attested))
  {
  }

  lemma FlagsKeepKeys(s: State, step: Step)
    requires KeyInv(s)
    requires step.DoCreateUser? || step.DoAddMember? || step.DoTriggerRekey? || step.DoArchive? || step.DoUnarchive? || step.DoClean?
    ensures KeyInv(Apply(s, step))
  {
  }

  lemma StepKeepsKeys(s: State, step: Step)
    requires KeyInv(s)
    ensures KeyInv(Apply(s, step))
  {
    match step
    case Push(user, m, now) => PushKeepsKeys(s, user, m, now);
    case Upload(user, g, kv, ups) => UploadKeepsKeys(s, user, g, kv, ups);
    case DoRevoke(uid, confirm) => RevokeKeepsKeys(s, uid, confirm);
    case DoRemoveMember(g, uid, confirm) => RemoveKeepsKeys(s, g, uid, confirm);
    case DoCreateGroup(g, name, caller) => CreateKeepsKeys(s, g, name, caller);
    case DoKeyfileReset(uid, pub, attested) => ResetKeepsKeys(s, uid, pub, attested);
    case _ => FlagsKeepKeys(s, step);
  }

  // ---- reachable states ----

  lemma StepKeepsInv(s: State, step: Step)
    requires Inv(s)
    ensures Inv(Apply(s, step))
  {
    StepKeepsLog(s, step);
    StepKeepsKeys(s, step);
  }

  lemma {:induction false} RunKeepsInv(s: State, steps: seq<Step>)
    requires Inv(s)
    ensures Inv(Run(s, steps))
  {
    if steps != [] {
      RunKeepsInv(s, steps[..|steps| - 1]);
      StepKeepsInv(Run(s, steps[..|steps| - 1]), steps[|steps| - 1]);
    }
  }

  /**
    In every state the server can reach: accepted writes are numbered without gaps, every stored row
    is the latest accepted write of its entry, the writes of each entry form a chain, and every
    envelope belongs to an active member of its group at a version the group has reached.
   */
  lemma ReachableInv(steps: seq<Step>)
    ensures Inv(Run(EMPTY_STATE, steps))
  {
    assert Inv(EMPTY_STATE);
    RunKeepsInv(EMPTY_STATE, steps);
  }
}
