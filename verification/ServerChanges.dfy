/**
  What changes the server's tables: for each of them the exact steps that do, out of all twelve, and
  what therefore lasts over runs.
 */
module ServerChanges {
  import opened Base
  import opened Wire
  import opened Server
  import opened ServerInvariant
  import opened ServerHistory
  import opened Rekey
  import opened Authority

  /** The step is an accepted mutation of the entry. */
  predicate Writes(s: State, step: Step, id: Id) {
    step.Push? && step.m.entry == id && PushOne(s, step.user, step.m, step.now).1.Accepted?
  }

  /** A stored entry changes exactly by an accepted mutation of it, or as a tombstone older than the cleaner's cutoff. */
  lemma EntryChanges(s: State, step: Step, id: Id)
    requires Inv(s)
    ensures Get(Apply(s, step).entries, id) != Get(s.entries, id) <==>
      Writes(s, step, id) ||
      (step.DoClean? && id in s.entries && s.entries[id].deleted && s.entries[id].at < step.before)
  {
    if step.Push? {
      AcceptedIff(s, step.user, step.m, step.now);
      if step.m.entry == id && id in s.entries { assert s.entries[id].seqNo <= s.seqNo; }
    } else if !step.DoClean? {
      OtherStepsKeepEntries(s, step);
    }
  }

  /** The step makes the user a member. */
  predicate Admits(s: State, step: Step, g: Id, u: Id) {
    && u in s.users && s.users[u].active
    && ((step.DoAddMember? && step.g == g && step.uid == u && g in s.groups)
        || (step.DoCreateGroup? && step.g == g && step.caller == u && step.name != "" && g !in s.groups && s.users[u].admin))
  }

  /** Members come by admission and go by confirmed removal or revocation, and in no other way. */
  lemma MemberChanges(s: State, step: Step, g: Id, u: Id)
    requires Inv(s)
    ensures Member(g, u) in Apply(s, step).members <==>
      (Member(g, u) in s.members || Admits(s, step, g, u)) && !Removes(s, step, g, u)
  {
    match step
    case Push(user, m, now) => AcceptedIff(s, user, m, now);
    case Upload(user, h, kv, ups) =>
    case DoRevoke(uid, confirm) => if Member(g, uid) in s.members { assert g in UserGroups(s, uid); }
    case _ =>
  }

  /** The step flags the group for a rekey. */
  predicate Flags(s: State, step: Step, g: Id) {
    || (step.DoTriggerRekey? && step.g == g)
    || (step.DoRemoveMember? && step.g == g && step.uid in s.users && step.confirm == s.users[step.uid].name)
    || (step.DoRevoke? && step.uid in s.users && step.confirm == s.users[step.uid].name && Member(g, step.uid) in s.members)
    || (step.DoKeyfileReset? && step.uid in s.users && s.users[step.uid].active && step.attested && Member(g, step.uid) in s.members)
  }

  /** The step names the group as one that is done with re-encrypting. */
  predicate Settles(s: State, step: Step, g: Id)
    requires g in s.groups && g in Apply(s, step).groups
  {
    (AcceptedPush(s, step, g) || RekeysGroup(s, step, g)) && Stale(Apply(s, step), g) == {}
  }

  /** A rekey is pending exactly while it was asked for and nothing has settled the group since. */
  lemma FlagChanges(s: State, step: Step, g: Id)
    requires g in s.groups
    ensures g in Apply(s, step).groups
    ensures Apply(s, step).groups[g].pending <==> (s.groups[g].pending || Flags(s, step, g)) && !Settles(s, step, g)
  {
    match step
    case Push(user, m, now) => PushFlag(s, user, m, now, g);
    case Upload(user, h, kv, ups) => UploadFlag(s, user, h, kv, ups, g);
    case DoRevoke(uid, confirm) => assert g in UserGroups(s, uid) <==> Member(g, uid) in s.members;
    case DoKeyfileReset(uid, pub, attested) => assert g in UserGroups(s, uid) <==> Member(g, uid) in s.members;
    case _ =>
  }

  lemma PushFlag(s: State, user: Id, m: Mutation, now: int, g: Id)
    requires g in s.groups
    ensures var step := Push(user, m, now);
      g in Apply(s, step).groups && (Apply(s, step).groups[g].pending <==> s.groups[g].pending && !Settles(s, step, g))
  {
  }

  lemma UploadFlag(s: State, user: Id, h: Id, kv: int, ups: seq<Upload>, g: Id)
    requires g in s.groups
    ensures var step := Step.Upload(user, h, kv, ups);
      g in Apply(s, step).groups && (Apply(s, step).groups[g].pending <==> s.groups[g].pending && !Settles(s, step, g))
  {
  }

  /** A flag lasts over every run in which nothing settles the group. */
  lemma {:induction false} FlagLasts(s: State, steps: seq<Step>, g: Id)
    requires g in s.groups && s.groups[g].pending
    requires forall i :: 0 <= i < |steps| ==>
      g in Run(s, steps[..i]).groups && g in Apply(Run(s, steps[..i]), steps[i]).groups &&
      !Settles(Run(s, steps[..i]), steps[i], g)
    ensures g in Run(s, steps).groups && Run(s, steps).groups[g].pending
  {
    if steps != [] {
      var n := |steps| - 1;
      forall i | 0 <= i < n
        ensures g in Run(s, steps[..n][..i]).groups && g in Apply(Run(s, steps[..n][..i]), steps[..n][i]).groups
        ensures !Settles(Run(s, steps[..n][..i]), steps[..n][i], g)
      {
        assert steps[..n][..i] == steps[..i] && steps[..n][i] == steps[i];
      }
      FlagLasts(s, steps[..n], g);
      FlagChanges(Run(s, steps[..n]), steps[n], g);
    }
  }

  /** Version and archiving of a group change by an accepted rekey, a confirmed archiving and an unarchiving alone. */
  lemma GroupChanges(s: State, step: Step, g: Id)
    requires g in s.groups
    ensures g in Apply(s, step).groups
    ensures var o, n := s.groups[g], Apply(s, step).groups[g];
      && n.name == o.name
      && n.kv == (if RekeysGroup(s, step, g) then o.kv + 1 else o.kv)
      && (n.archived <==> (o.archived || (step.DoArchive? && step.g == g && step.confirm == o.name))
                          && !(step.DoUnarchive? && step.g == g))
  {
    match step
    case Push(user, m, now) => AcceptedIff(s, user, m, now);
    case Upload(user, h, kv, ups) => UploadRaises(s, user, h, kv, ups, g);
    case _ =>
  }

  lemma UploadRaises(s: State, user: Id, h: Id, kv: int, ups: seq<Upload>, g: Id)
    requires g in s.groups
    ensures var t := UploadKeys(s, user, h, kv, ups).0;
      && g in t.groups && t.groups[g].name == s.groups[g].name && t.groups[g].archived == s.groups[g].archived
      && t.groups[g].kv == if g == h && IsRekey(s, user, h, kv, ups) then s.groups[g].kv + 1 else s.groups[g].kv
  {
  }

  /** A group appears at version 1, neither pending nor archived, and only by being created under a name. */
  lemma GroupAppears(s: State, step: Step, g: Id)
    requires g !in s.groups
    ensures g in Apply(s, step).groups <==> step.DoCreateGroup? && step.g == g && step.name != ""
    ensures g in Apply(s, step).groups ==> Apply(s, step).groups[g] == Group(step.name, 1, false, false)
  {
  }

  /** The step brings in a user who is attested and whose name and key nobody has. */
  predicate Enrols(s: State, step: Step, u: Id) {
    && step.DoCreateUser? && step.uid == u && step.attested && step.username != "" && step.name != "" && step.pub != ""
    && u !in s.users && forall v :: v in s.users ==> s.users[v].username != step.username && s.users[v].pub != step.pub
  }

  /** How a user's record comes about and changes: enrolment, a confirmed revocation, an attested new key. */
  lemma UserChanges(s: State, step: Step, u: Id)
    ensures var t := Apply(s, step);
      Get(t.users, u) ==
        if Enrols(s, step, u) then Some(User(step.username, step.name, step.pub, true, step.admin))
        else if u !in s.users then None
        else if step.DoRevoke? && step.uid == u && step.confirm == s.users[u].name then Some(s.users[u].(active := false))
        else if step.DoKeyfileReset? && step.uid == u && step.attested && s.users[u].active then Some(s.users[u].(pub := step.pub))
        else Some(s.users[u])
  {
  }

  ghost predicate NamesDistinct(s: State) {
    forall u, v :: u in s.users && v in s.users && u != v ==> s.users[u].username != s.users[v].username
  }

  lemma StepKeepsNames(s: State, step: Step)
    requires NamesDistinct(s)
    ensures NamesDistinct(Apply(s, step))
  {
    forall u, v | u in Apply(s, step).users && v in Apply(s, step).users && u != v
      ensures Apply(s, step).users[u].username != Apply(s, step).users[v].username
    {
      UserChanges(s, step, u);
      UserChanges(s, step, v);
    }
  }

  /** No two users ever share a name to log in with. */
  lemma {:induction false} UsernamesUnique(steps: seq<Step>)
    ensures NamesDistinct(Run(EMPTY_STATE, steps))
  {
    if steps != [] {
      UsernamesUnique(steps[..|steps| - 1]);
      StepKeepsNames(Run(EMPTY_STATE, steps[..|steps| - 1]), steps[|steps| - 1]);
    }
  }

  // ---- envelopes ----

  /** An envelope appears exactly by an accepted upload that names its user, group and version. */
  lemma EnvelopeAppears(s: State, step: Step, k: EnvKey)
    requires k !in s.envs
    ensures k in Apply(s, step).envs <==>
      && step.Upload? && step.g == k.group && step.kv == k.kv && k.user in UploadUsers(step.ups)
      && UploadKeys(s, step.user, step.g, step.kv, step.ups).1 == 0
  {
    match step
    case Push(user, m, now) => AcceptedIff(s, user, m, now);
    case Upload(user, g, kv, ups) => UploadAdds(s, user, g, kv, ups, k);
    case _ =>
  }

  lemma UploadAdds(s: State, user: Id, g: Id, kv: int, ups: seq<Upload>, k: EnvKey)
    requires k !in s.envs
    ensures k in UploadKeys(s, user, g, kv, ups).0.envs <==>
      k.group == g && k.kv == kv && k.user in UploadUsers(ups) && UploadKeys(s, user, g, kv, ups).1 == 0
  {
    AppendAdds(s, g, kv, ups, k);
    if g in s.groups { CommitAdds(s, g, kv, ups, k); }
  }

  lemma AppendAdds(s: State, g: Id, kv: int, ups: seq<Upload>, k: EnvKey)
    requires k !in s.envs
    ensures k in AppendEnvelopes(s, g, kv, ups).0.envs <==>
      k.group == g && k.kv == kv && k.user in UploadUsers(ups) && AppendEnvelopes(s, g, kv, ups).1 == 0
  {
    InsertedKeys(s.envs, g, kv, ups);
    NamedKeys(g, kv, ups, k);
  }

  lemma CommitAdds(s: State, g: Id, kv: int, ups: seq<Upload>, k: EnvKey)
    requires k !in s.envs && g in s.groups
    ensures k in CommitRekey(s, g, kv, ups).0.envs <==>
      k.group == g && k.kv == kv && k.user in UploadUsers(ups) && CommitRekey(s, g, kv, ups).1 == 0
  {
    InsertedKeys(DropKV(s.envs, g, kv), g, kv, ups);
    NamedKeys(g, kv, ups, k);
  }

  lemma NamedKeys(g: Id, kv: int, ups: seq<Upload>, k: EnvKey)
    ensures k in EnvKeys(g, kv, ups) <==> k.group == g && k.kv == kv && k.user in UploadUsers(ups)
  {
    if k.user in UploadUsers(ups) {
      var i :| 0 <= i < |ups| && ups[i].user == k.user;
      assert EnvKey(g, kv, ups[i].user) in EnvKeys(g, kv, ups);
    }
  }

  /** The step takes the envelopes of the user in the group away. */
  predicate TakesKeys(s: State, step: Step, g: Id, u: Id) {
    u in s.users &&
    ((step.DoRemoveMember? && step.g == g && step.uid == u && step.confirm == s.users[u].name)
     || (step.DoRevoke? && step.uid == u && step.confirm == s.users[u].name)
     || (step.DoKeyfileReset? && step.uid == u && step.attested && s.users[u].active))
  }

  /** An envelope goes exactly when its user is cut off or reset, or when its group settles at a later version. */
  lemma EnvelopeGoes(s: State, step: Step, k: EnvKey)
    requires Inv(s) && k in s.envs
    ensures k.group in Apply(s, step).groups
    ensures k !in Apply(s, step).envs <==>
      TakesKeys(s, step, k.group, k.user) ||
      (Settles(s, step, k.group) && k.kv < Apply(s, step).groups[k.group].kv)
  {
    EnvelopeInGroup(s, k);
    EnvelopeDrops(s, step, k);
  }

  lemma EnvelopeDrops(s: State, step: Step, k: EnvKey)
    requires k in s.envs && k.group in s.groups && k.kv <= s.groups[k.group].kv
    ensures k.group in Apply(s, step).groups
    ensures k !in Apply(s, step).envs <==>
      TakesKeys(s, step, k.group, k.user) ||
      (Settles(s, step, k.group) && k.kv < Apply(s, step).groups[k.group].kv)
  {
    match step
    case Push(user, m, now) => PushDrops(s, user, m, now, k);
    case Upload(user, g, kv, ups) => UploadDrops(s, user, g, kv, ups, k);
    case _ =>
      AdminDrops(s, step, k);
      GroupStays(s, step, k.group);
  }

  lemma EnvelopeInGroup(s: State, k: EnvKey)
    requires Inv(s) && k in s.envs
    ensures k.group in s.groups && k.kv <= s.groups[k.group].kv
  {
  }

  lemma GroupStays(s: State, step: Step, g: Id)
    requires g in s.groups
    ensures g in Apply(s, step).groups
  {
    GroupChanges(s, step, g);
  }

  lemma AdminDrops(s: State, step: Step, k: EnvKey)
    requires k in s.envs && !step.Push? && !step.Upload?
    ensures k !in Apply(s, step).envs <==> TakesKeys(s, step, k.group, k.user)
  {
  }

  lemma PushDrops(s: State, user: Id, m: Mutation, now: int, k: EnvKey)
    requires k in s.envs && k.group in s.groups
    ensures var step := Push(user, m, now);
      && k.group in Apply(s, step).groups
      && (k !in Apply(s, step).envs <==> Settles(s, step, k.group) && k.kv < Apply(s, step).groups[k.group].kv)
  {
  }

  lemma UploadDrops(s: State, user: Id, g: Id, kv: int, ups: seq<Upload>, k: EnvKey)
    requires k in s.envs && k.group in s.groups && k.kv <= s.groups[k.group].kv
    ensures var step := Step.Upload(user, g, kv, ups);
      && k.group in Apply(s, step).groups
      && (k !in Apply(s, step).envs <==> Settles(s, step, k.group) && k.kv < Apply(s, step).groups[k.group].kv)
  {
    if IsRekey(s, user, g, kv, ups) { RekeyDrops(s, user, g, kv, ups, k); } else { AppendDropsNone(s, user, g, kv, ups, k); }
  }

  lemma RekeyDrops(s: State, user: Id, g: Id, kv: int, ups: seq<Upload>, k: EnvKey)
    requires k in s.envs && k.group in s.groups && k.kv <= s.groups[k.group].kv && IsRekey(s, user, g, kv, ups)
    ensures var step := Step.Upload(user, g, kv, ups);
      && k.group in Apply(s, step).groups
      && (k !in Apply(s, step).envs <==> Settles(s, step, k.group) && k.kv < Apply(s, step).groups[k.group].kv)
  {
    InsertedKeys(DropKV(s.envs, g, kv), g, kv, ups);
  }

  lemma AppendDropsNone(s: State, user: Id, g: Id, kv: int, ups: seq<Upload>, k: EnvKey)
    requires k in s.envs && !IsRekey(s, user, g, kv, ups)
    ensures var t := UploadKeys(s, user, g, kv, ups).0; k in t.envs && t.groups == s.groups
  {
    InsertedKeys(s.envs, g, kv, ups);
  }

  // ---- archived groups ----

  /** Archived as at s, at the same version, with no entry or envelope written and no live entry gone. */
  ghost predicate Frozen(s: State, t: State, g: Id)
    requires g in s.groups
  {
    && g in t.groups && t.groups[g].archived && t.groups[g].kv == s.groups[g].kv
    && (forall id :: id in t.entries && t.entries[id].group == g ==> Get(s.entries, id) == Some(t.entries[id]))
    && (forall id :: id in s.entries && s.entries[id].group == g && !s.entries[id].deleted ==>
          Get(t.entries, id) == Some(s.entries[id]))
    && forall k :: k in t.envs && k.group == g ==> Get(s.envs, k) == Some(t.envs[k])
  }

  lemma FrozenStep(s: State, step: Step, g: Id)
    requires Inv(s) && g in s.groups && s.groups[g].archived
    requires OwnGroup(s, step) && !(step.DoUnarchive? && step.g == g)
    ensures Frozen(s, Apply(s, step), g)
  {
    var t := Apply(s, step);
    GroupChanges(s, step, g);
    FrozenEntries(s, step, g);
    forall k | k in t.envs && k.group == g ensures Get(s.envs, k) == Some(t.envs[k]) {
      if k !in s.envs { EnvelopeAppears(s, step, k); }
      EnvelopesNeverOverwritten(s, step, k);
    }
  }

  lemma FrozenEntries(s: State, step: Step, g: Id)
    requires Inv(s) && g in s.groups && s.groups[g].archived && OwnGroup(s, step)
    ensures var t := Apply(s, step);
      && (forall id :: id in t.entries && t.entries[id].group == g ==> Get(s.entries, id) == Some(t.entries[id]))
      && (forall id :: id in s.entries && s.entries[id].group == g && !s.entries[id].deleted ==>
            Get(t.entries, id) == Some(s.entries[id]))
  {
    if step.Push? {
      AcceptedIff(s, step.user, step.m, step.now);
    } else if !step.DoClean? {
      OtherStepsKeepEntries(s, step);
    }
  }

  /** While a group is archived nobody's mutation or upload reaches it, until it is taken out of the archive. */
  lemma {:induction false} ArchivedGroupFrozen(s: State, steps: seq<Step>, g: Id)
    requires Inv(s) && g in s.groups && s.groups[g].archived
    requires forall i :: 0 <= i < |steps| ==>
      OwnGroup(Run(s, steps[..i]), steps[i]) && !(steps[i].DoUnarchive? && steps[i].g == g)
    ensures Frozen(s, Run(s, steps), g)
  {
    if steps != [] {
      var n := |steps| - 1;
      forall i | 0 <= i < n
        ensures OwnGroup(Run(s, steps[..n][..i]), steps[..n][i])
        ensures !(steps[..n][i].DoUnarchive? && steps[..n][i].g == g)
      {
        assert steps[..n][..i] == steps[..i] && steps[..n][i] == steps[i];
      }
      ArchivedGroupFrozen(s, steps[..n], g);
      RunKeepsInv(s, steps[..n]);
      FrozenStep(Run(s, steps[..n]), steps[n], g);
      FrozenThrough(s, Run(s, steps[..n]), Run(s, steps), g);
    }
  }

  lemma FrozenThrough(s: State, mid: State, t: State, g: Id)
    requires g in s.groups && Frozen(s, mid, g) && Frozen(mid, t, g)
    ensures Frozen(s, t, g)
  {
  }
}
