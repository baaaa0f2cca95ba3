/** Who may change what on the server: the condition for every change of every table, over steps and runs. */
module Authority {
  import opened Base
  import opened Wire
  import opened Server
  import opened ServerInvariant
  import opened ServerHistory
  import opened Rekey

  // ---- who may write ----

  /** A member of a group that exists and is not archived. */
  predicate MayWrite(s: State, user: Id, g: Id) {
    Member(g, user) in s.members && g in s.groups && !s.groups[g].archived
  }

  /** The base is the version the server stores, or 0 for an entry it does not have. */
  predicate UpToDate(s: State, id: Id, base: int) {
    base == if id in s.entries then s.entries[id].seqNo else 0
  }

  /** A mutation is accepted exactly if its author may write, it fits, and version and base are the current ones. */
  lemma AcceptedIff(s: State, user: Id, m: Mutation, now: int)
    ensures PushOne(s, user, m, now).1.Accepted? <==>
      && MayWrite(s, user, m.group) && WireSize(m.ct) <= MAX_CIPHERTEXT
      && m.kv == s.groups[m.group].kv && UpToDate(s, m.entry, m.base)
    ensures PushOne(s, user, m, now).1.Refused? ==> PushOne(s, user, m, now).0 == s
  {
  }

  /** What a refusal says is so. */
  lemma RefusalTellsWhy(s: State, user: Id, m: Mutation, now: int)
    requires PushOne(s, user, m, now).1.Refused?
    ensures var r := PushOne(s, user, m, now).1;
      var fits := WireSize(m.ct) <= MAX_CIPHERTEXT;
      && (r.code == ERR_NOT_MEMBER <==> Member(m.group, user) !in s.members || m.group !in s.groups)
      && (r.code == ERR_GROUP_ARCHIVED ==> m.group in s.groups && s.groups[m.group].archived)
      && (r.code == ERR_TOO_LARGE ==> !fits)
      && (r.code == ERR_KEY_VERSION_STALE <==> MayWrite(s, user, m.group) && fits && m.kv != s.groups[m.group].kv)
      && (r.code == ERR_CONFLICT ==> m.entry in s.entries && !UpToDate(s, m.entry, m.base))
      && r.current == (if r.code == ERR_CONFLICT then Some(AsChange(m.entry, s.entries[m.entry])) else None)
  {
  }

  /** An accepted mutation is what the server stores from then on, under the next number. */
  lemma AcceptedIsStored(s: State, user: Id, m: Mutation, now: int)
    requires PushOne(s, user, m, now).1.Accepted?
    ensures var (t, r) := PushOne(s, user, m, now);
      var g := if m.entry in s.entries then s.entries[m.entry].group else m.group;
      && r == Accepted(m.entry, s.seqNo + 1) && t.seqNo == s.seqNo + 1
      && t.entries == s.entries[m.entry := Entry(g, s.seqNo + 1, m.kv, m.ct, m.deleted, now)]
      && t.members == s.members && t.users == s.users && t.groups.Keys == s.groups.Keys
  {
  }

  /** An upload is accepted exactly if its author may write and it either adds, or names all for the next version. */
  lemma UploadAcceptedIff(s: State, user: Id, g: Id, kv: int, ups: seq<Upload>)
    ensures UploadKeys(s, user, g, kv, ups).1 == 0 <==>
      && MayWrite(s, user, g) && DistinctUsers(ups)
      && ((kv == s.groups[g].kv && UploadUsers(ups) <= Active(s, g) &&
           forall i :: 0 <= i < |ups| ==> EnvKey(g, kv, ups[i].user) !in s.envs)
          || (kv == s.groups[g].kv + 1 && UploadUsers(ups) == Active(s, g)))
    ensures UploadKeys(s, user, g, kv, ups).1 != 0 ==> UploadKeys(s, user, g, kv, ups).0 == s
  {
    CountUsers(ups);
    if MayWrite(s, user, g) && kv == s.groups[g].kv + 1 && UploadUsers(ups) <= Active(s, g) <= UploadUsers(ups) {
      assert UploadUsers(ups) == Active(s, g);
    }
  }

  lemma {:induction false} InsertedValues(envs: Envelopes, g: Id, kv: int, ups: seq<Upload>)
    requires DistinctUsers(ups)
    ensures forall i :: 0 <= i < |ups| ==>
      Get(InsertEnvs(envs, g, kv, ups), EnvKey(g, kv, ups[i].user)) == Some(ups[i].wrapped)
  {
    if ups != [] {
      var n := |ups| - 1;
      DistinctSnoc(ups);
      InsertedValues(envs, g, kv, ups[..n]);
      forall i | 0 <= i < |ups|
        ensures Get(InsertEnvs(envs, g, kv, ups), EnvKey(g, kv, ups[i].user)) == Some(ups[i].wrapped)
      {
        if i < n { assert ups[..n][i] == ups[i]; }
      }
    }
  }

  /** Every envelope of an accepted upload is stored as it was sent, and the group is at the uploaded version. */
  lemma UploadIsStored(s: State, user: Id, g: Id, kv: int, ups: seq<Upload>)
    requires UploadKeys(s, user, g, kv, ups).1 == 0
    ensures var t := UploadKeys(s, user, g, kv, ups).0;
      && g in t.groups && t.groups[g].kv == kv && t.entries == s.entries && t.members == s.members && t.users == s.users
      && forall i :: 0 <= i < |ups| ==> Get(t.envs, EnvKey(g, kv, ups[i].user)) == Some(ups[i].wrapped)
  {
    InsertedValues(s.envs, g, kv, ups);
    InsertedValues(DropKV(s.envs, g, kv), g, kv, ups);
  }

  // ---- those who are out ----

  predicate ActsOn(step: Step, u: Id, g: Id) {
    (step.Push? && step.user == u && step.m.group == g) || (step.Upload? && step.user == u && step.g == g)
  }

  /** Pushes and uploads of someone outside the group, or to an archived group, leave everything as it was. */
  lemma OutsiderChangesNothing(s: State, step: Step, u: Id, g: Id)
    requires ActsOn(step, u, g) && !MayWrite(s, u, g)
    ensures Apply(s, step) == s && !AcceptedPush(s, step, g)
  {
    if step.Push? { AcceptedIff(s, u, step.m, step.now); } else { UploadAcceptedIff(s, u, g, step.kv, step.ups); }
  }

  /** After a removal or revocation, and until readmission, nothing the user sends to the group has any effect. */
  lemma RemovedUserCannotWrite(s: State, removal: Step, steps: seq<Step>, g: Id, u: Id)
    requires Inv(s) && g in s.groups && Removes(s, removal, g, u)
    requires forall j :: 0 <= j < |steps| ==> !Readmits(steps[j], g, u)
    ensures var r := Apply(s, removal);
      forall i :: 0 <= i < |steps| && ActsOn(steps[i], u, g) ==>
        Run(r, steps[..i + 1]) == Run(r, steps[..i]) && !AcceptedPush(Run(r, steps[..i]), steps[i], g)
  {
    var r := Apply(s, removal);
    RemovalTakesEffect(s, removal, g, u);
    forall i | 0 <= i < |steps| && ActsOn(steps[i], u, g)
      ensures Run(r, steps[..i + 1]) == Run(r, steps[..i]) && !AcceptedPush(Run(r, steps[..i]), steps[i], g)
    {
      RunNeverGrants(r, steps[..i], g, u);
      OutsiderChangesNothing(Run(r, steps[..i]), steps[i], u, g);
      RunNext(r, steps, i);
    }
  }

  predicate Revoked(s: State, u: Id) {
    u in s.users && !s.users[u].active
  }

  lemma RevokedStep(s: State, step: Step, u: Id)
    requires Revoked(s, u)
    ensures Revoked(Apply(s, step), u)
  {
    match step
    case Push(user, m, now) => AcceptedIff(s, user, m, now);
    case Upload(user, g, kv, ups) =>
    case _ =>
  }

  lemma {:induction false} RevokedStays(s: State, steps: seq<Step>, u: Id)
    requires Revoked(s, u)
    ensures Revoked(Run(s, steps), u)
  {
    if steps != [] {
      RevokedStays(s, steps[..|steps| - 1], u);
      RevokedStep(Run(s, steps[..|steps| - 1]), steps[|steps| - 1], u);
    }
  }

  lemma RevokedHasNoGroup(s: State, u: Id)
    requires MembersOk(s) && Revoked(s, u)
    ensures forall g :: Member(g, u) !in s.members
  {
    forall m | m in s.members ensures m.user != u {}
  }

  /**
    Revocation is final.  Whatever anybody does afterwards, the user stays revoked, belongs to no
    group, has no envelope, and nothing they send has any effect.
   */
  lemma RevokedForever(s: State, steps: seq<Step>, u: Id)
    requires Inv(s) && Revoked(s, u)
    ensures var t := Run(s, steps);
      && Revoked(t, u) && (forall g :: Member(g, u) !in t.members) && (forall k :: k in t.envs ==> k.user != u)
      && forall step, g :: ActsOn(step, u, g) ==> Apply(t, step) == t
  {
    var t := Run(s, steps);
    RevokedStays(s, steps, u);
    RunKeepsInv(s, steps);
    RevokedHasNoGroup(t, u);
    forall step, g | ActsOn(step, u, g) ensures Apply(t, step) == t { OutsiderChangesNothing(t, step, u, g); }
  }

  /** A confirmed revocation takes effect at once: the user is out of every group, and each of those is flagged. */
  lemma RevocationTakesEffect(s: State, u: Id)
    requires Inv(s) && u in s.users
    ensures var t := Revoke(s, u, s.users[u].name);
      && Revoked(t, u) && t.entries == s.entries && t.users == s.users[u := s.users[u].(active := false)]
      && (forall g :: g in UserGroups(s, u) ==> t.groups[g] == s.groups[g].(pending := true))
      && (forall g :: g in s.groups && g !in UserGroups(s, u) ==> g in t.groups && t.groups[g] == s.groups[g])
      && (forall m :: m in t.members <==> m in s.members && m.user != u)
      && (forall k :: k in t.envs <==> k in s.envs && k.user != u)
  {
    forall m | m in s.members && m.user == u ensures m.group in UserGroups(s, u) { assert m == Member(m.group, u); }
  }

  /** A reset user keeps the groups but lacks an envelope in each that is not archived, and each is flagged. */
  lemma ResetLocksOut(s: State, u: Id, pub: string)
    requires Inv(s) && u in s.users && s.users[u].active
    ensures var t := KeyfileReset(s, u, pub, true);
      && t.users == s.users[u := s.users[u].(pub := pub)] && t.members == s.members && t.entries == s.entries
      && (forall g :: g in UserGroups(s, u) ==>
            g in t.groups && t.groups[g] == s.groups[g].(pending := true) && (t.groups[g].archived || u in Missing(t, g)))
      && (forall k :: k in t.envs <==> k in s.envs && k.user != u)
    ensures KeyfileReset(s, u, pub, false) == s
  {
  }
}
