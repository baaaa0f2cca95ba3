/** Key rotation: when it converges, and what can disturb it. */
module Rekey {
  import opened Base
  import opened Wire
  import opened Server
  import opened ServerInvariant
  import opened ServerHistory

  /** The live entries a group still has to re-encrypt. */
  function Stale(s: State, g: Id): set<Id>
    requires g in s.groups
  {
    Below(s.entries, g, s.groups[g].kv)
  }

  /** The mutation names the group its entry is stored in (new entries always do). */
  predicate OwnGroup(s: State, step: Step) {
    step.Push? && step.m.entry in s.entries ==> s.entries[step.m.entry].group == step.m.group
  }

  predicate RekeysGroup(s: State, step: Step, g: Id) {
    step.Upload? && step.g == g && IsRekey(s, step.user, step.g, step.kv, step.ups)
  }

  /** The exact effect of an accepted push on the stale entries of any group. */
  lemma PushAndStale(s: State, user: Id, m: Mutation, now: int, g: Id)
    requires g in s.groups && Accepts(s, user, m)
    ensures var t := PushOne(s, user, m, now).0;
      g in t.groups && t.groups[g].kv == s.groups[g].kv &&
      Stale(t, g) == if StoredRow(s, m, now).group == g && !m.deleted && m.kv < s.groups[g].kv
                     then Stale(s, g) + {m.entry} else Stale(s, g) - {m.entry}
  {
  }

  /**
    A push naming another group than the one its entry is stored in can put a finished entry back
    behind; it does exactly when the write is live and below the storing group's version.
   */
  lemma ForeignPushRaisesStale(s: State, user: Id, m: Mutation, now: int, g: Id)
    requires g in s.groups && Accepts(s, user, m)
    ensures g in PushOne(s, user, m, now).0.groups
    ensures Stale(PushOne(s, user, m, now).0, g) <= Stale(s, g) <==>
            m.entry in Stale(s, g) || StoredRow(s, m, now).group != g || m.deleted || m.kv >= s.groups[g].kv
    ensures OwnGroup(s, Push(user, m, now)) ==> Stale(PushOne(s, user, m, now).0, g) == Stale(s, g) - {m.entry}
  {
    PushAndStale(s, user, m, now, g);
    var t := PushOne(s, user, m, now).0;
    if StoredRow(s, m, now).group == g && !m.deleted && m.kv < s.groups[g].kv {
      assert m.entry in Stale(t, g);
    }
  }

  /** User u rotates group a to version 2, writes entry e there, and belongs to group b at version 1. */
  const TWO_GROUPS := [
    DoCreateUser("u", "u", "u", "pu", true, true),
    DoCreateGroup("a", "a", "u"),
    DoCreateGroup("b", "b", "u"),
    Step.Upload("u", "a", 2, [Wire.Upload("u", Wrapped("pu", 7))]),
    Push("u", Mutation("e", "a", 0, 2, EMPTY, false), 0)]

  const THROUGH_B := Mutation("e", "b", 1, 1, EMPTY, false)

  ghost predicate InTwoGroups(s: State, kv: int) {
    && s.groups == map["a" := Group("a", kv, false, false), "b" := Group("b", 1, false, false)]
    && s.members == {Member("a", "u"), Member("b", "u")}
    && s.users == map["u" := User("u", "u", "pu", true, true)]
  }

  lemma FirstThree()
    ensures var s := Run(EMPTY_STATE, TWO_GROUPS[..3]); InTwoGroups(s, 1) && s.entries == map[] && s.seqNo == 0
  {
    assert TWO_GROUPS[..0] == [];
    RunNext(EMPTY_STATE, TWO_GROUPS, 0);
    RunNext(EMPTY_STATE, TWO_GROUPS, 1);
    RunNext(EMPTY_STATE, TWO_GROUPS, 2);
  }

  lemma Rotated(s: State)
    requires InTwoGroups(s, 1) && s.entries == map[] && s.seqNo == 0
    ensures var t := Apply(s, TWO_GROUPS[3]); InTwoGroups(t, 2) && t.entries == map[] && t.seqNo == 0
  {
    var ups := TWO_GROUPS[3].ups;
    assert UploadUsers(ups) == {"u"} by { assert ups[0].user == "u"; }
    assert Active(s, "a") == {"u"};
    assert Below(s.entries, "a", 2) == {};
  }

  lemma Written(s: State)
    requires InTwoGroups(s, 2) && s.entries == map[] && s.seqNo == 0
    ensures var t := Apply(s, TWO_GROUPS[4]);
      InTwoGroups(t, 2) && t.entries == map["e" := Entry("a", 1, 2, EMPTY, false, 0)]
  {
    assert Accepts(s, "u", TWO_GROUPS[4].m);
  }

  lemma FirstFour()
    ensures var s := Run(EMPTY_STATE, TWO_GROUPS[..4]); InTwoGroups(s, 2) && s.entries == map[] && s.seqNo == 0
  {
    FirstThree();
    RunNext(EMPTY_STATE, TWO_GROUPS, 3);
    Rotated(Run(EMPTY_STATE, TWO_GROUPS[..3]));
  }

  lemma TwoGroups()
    ensures var s := Run(EMPTY_STATE, TWO_GROUPS);
      InTwoGroups(s, 2) && s.entries == map["e" := Entry("a", 1, 2, EMPTY, false, 0)]
  {
    FirstFour();
    RunNext(EMPTY_STATE, TWO_GROUPS, 4);
    Written(Run(EMPTY_STATE, TWO_GROUPS[..4]));
    assert TWO_GROUPS[..5] == TWO_GROUPS;
  }

  /** Reachable, and in it that happens: written through group b, entry e falls behind group a. */
  lemma ForeignPushExample()
    ensures var s := Run(EMPTY_STATE, TWO_GROUPS);
      Accepts(s, "u", THROUGH_B) && "a" in s.groups && Stale(s, "a") == {} &&
      "a" in PushOne(s, "u", THROUGH_B, 0).0.groups && "e" in Stale(PushOne(s, "u", THROUGH_B, 0).0, "a")
  {
    TwoGroups();
    PushAndStale(Run(EMPTY_STATE, TWO_GROUPS), "u", THROUGH_B, 0, "a");
  }

  /** With own-group mutations, only a rekey commit of the group adds to its stale entries. */
  lemma StepShrinksStale(s: State, step: Step, g: Id)
    requires g in s.groups && OwnGroup(s, step) && !RekeysGroup(s, step, g)
    ensures g in Apply(s, step).groups && Apply(s, step).groups[g].kv == s.groups[g].kv
    ensures Stale(Apply(s, step), g) <= Stale(s, g)
    ensures AcceptedPush(s, step, g) ==> step.m.entry !in Stale(Apply(s, step), g)
  {
    if step.Push? {
      if Accepts(s, step.user, step.m) {
        ForeignPushRaisesStale(s, step.user, step.m, step.now, g);
      }
    } else if step.DoClean? {
    } else {
      OtherStepsKeepEntries(s, step);
      VersionKept(s, step, g);
    }
  }

  lemma VersionKept(s: State, step: Step, g: Id)
    requires g in s.groups && !step.Push? && !RekeysGroup(s, step, g)
    ensures g in Apply(s, step).groups && Apply(s, step).groups[g].kv == s.groups[g].kv
  {
    if step.Upload? && step.g == g && UploadKeys(s, step.user, g, step.kv, step.ups).1 == 0 {
      assert step.kv == s.groups[g].kv;
    }
  }

  /** What an accepted push settles: the pending flag falls exactly when nothing is left behind. */
  lemma PushSettles(s: State, user: Id, m: Mutation, now: int)
    requires Accepts(s, user, m) && OwnGroup(s, Push(user, m, now))
    ensures var t, g := PushOne(s, user, m, now).0, m.group;
      && g in t.groups
      && (t.groups[g].pending <==> s.groups[g].pending && Stale(t, g) != {})
      && (Stale(t, g) == {} ==> forall k :: k in t.envs && k.group == g ==> k.kv >= t.groups[g].kv)
      && (Stale(t, g) != {} ==> t.envs == s.envs)
  {
  }

  /**
    The pending flag of a removal can therefore be lost: any accepted push of a group with nothing
    stale clears it, although no rekey took place.
   */
  lemma PendingLostWithoutRekey(s: State, g: Id, u: Id, user: Id, m: Mutation, now: int)
    requires Inv(s) && g in s.groups && u in s.users && m.group == g
    requires var r := RemoveMember(s, g, u, s.users[u].name);
      Accepts(r, user, m) && OwnGroup(r, Push(user, m, now))
    ensures var r := RemoveMember(s, g, u, s.users[u].name);
      var t := PushOne(r, user, m, now).0;
      && r.groups[g].pending && g in t.groups && t.groups[g].kv == s.groups[g].kv
      && (!t.groups[g].pending <==> Stale(r, g) <= {m.entry})
  {
    var r := RemoveMember(s, g, u, s.users[u].name);
    PushSettles(r, user, m, now);
    ForeignPushRaisesStale(r, user, m, now, g);
  }

  /** A run of server steps in which it happens: the group still uses the key the removed user holds. */
  lemma PendingLostExample()
    ensures exists s: State, m: Mutation :: var r := RemoveMember(s, "g", "v", "v");
      Inv(s) && "g" in s.groups && "v" in s.users && Removes(s, DoRemoveMember("g", "v", "v"), "g", "v") &&
      m.group == "g" && Accepts(r, "u", m) && "g" in PushOne(r, "u", m, 0).0.groups &&
      !PushOne(r, "u", m, 0).0.groups["g"].pending && PushOne(r, "u", m, 0).0.groups["g"].kv == s.groups["g"].kv
  {
    var s := State(0, map[], map["g" := Group("g", 1, false, false)], {Member("g", "u"), Member("g", "v")},
                   map["u" := User("u", "u", "pu", true, true), "v" := User("v", "v", "pv", true, false)],
                   map[EnvKey("g", 1, "v") := Wrapped("pv", 7)], [], {EnvKey("g", 1, "v")});
    var m := Mutation("e", "g", 0, 1, EMPTY, false);
    assert Inv(s);
    var r := RemoveMember(s, "g", "v", "v");
    assert Accepts(r, "u", m);
    assert Stale(r, "g") <= {m.entry};
    PendingLostWithoutRekey(s, "g", "v", "u", m, 0);
  }

  // ---- convergence over runs ----

  /** Nothing live is ahead of its group. */
  ghost predicate NotAhead(s: State, g: Id)
    requires g in s.groups
  {
    forall id :: id in s.entries && s.entries[id].group == g && !s.entries[id].deleted ==>
      s.entries[id].kv <= s.groups[g].kv
  }

  /** A run with own-group mutations and no further rekey commit of the group. */
  ghost predicate Settling(s: State, steps: seq<Step>, g: Id) {
    forall i :: 0 <= i < |steps| ==>
      OwnGroup(Run(s, steps[..i]), steps[i]) && !RekeysGroup(Run(s, steps[..i]), steps[i], g)
  }

  lemma StepNotAhead(s: State, step: Step, g: Id)
    requires g in s.groups && NotAhead(s, g) && OwnGroup(s, step) && !RekeysGroup(s, step, g)
    ensures g in Apply(s, step).groups && NotAhead(Apply(s, step), g)
  {
    StepShrinksStale(s, step, g);
    if step.Push? {
    } else if step.DoClean? {
    } else {
      OtherStepsKeepEntries(s, step);
    }
  }

  lemma SettlingInit(s: State, steps: seq<Step>, g: Id)
    requires steps != [] && Settling(s, steps, g)
    ensures Settling(s, steps[..|steps| - 1], g)
    ensures OwnGroup(Run(s, steps[..|steps| - 1]), steps[|steps| - 1])
    ensures !RekeysGroup(Run(s, steps[..|steps| - 1]), steps[|steps| - 1], g)
  {
    var init := steps[..|steps| - 1];
    forall i | 0 <= i < |init|
      ensures OwnGroup(Run(s, init[..i]), init[i]) && !RekeysGroup(Run(s, init[..i]), init[i], g)
    {
      assert init[..i] == steps[..i];
    }
  }

  /** Stale entries only leave, and an entry leaves with its first accepted push. */
  lemma {:induction false} SettlingRun(s: State, steps: seq<Step>, g: Id)
    requires g in s.groups && NotAhead(s, g) && Settling(s, steps, g)
    ensures var t := Run(s, steps);
      g in t.groups && t.groups[g].kv == s.groups[g].kv && NotAhead(t, g) && Stale(t, g) <= Stale(s, g)
    ensures forall i :: 0 <= i < |steps| && AcceptedPush(Run(s, steps[..i]), steps[i], g) ==>
      g in Run(s, steps).groups && steps[i].m.entry !in Stale(Run(s, steps), g)
  {
    if steps != [] {
      var n := |steps| - 1;
      var init, mid := steps[..n], Run(s, steps[..n]);
      SettlingInit(s, steps, g);
      SettlingRun(s, init, g);
      StepShrinksStale(mid, steps[n], g);
      StepNotAhead(mid, steps[n], g);
      forall i | 0 <= i < |steps| && AcceptedPush(Run(s, steps[..i]), steps[i], g)
        ensures steps[i].m.entry !in Stale(Run(s, steps), g)
      {
        if i < n { assert init[..i] == steps[..i] && init[i] == steps[i]; }
      }
    }
  }

  /**
    Convergence.  After a rekey commit, once every stale entry has had an accepted push, and at the
    push that completes them, the pending flag is clear, no envelope below the group's version
    remains, and every live entry of the group is at exactly that version.
   */
  lemma RekeyConverges(s: State, steps: seq<Step>, g: Id)
    requires g in s.groups && NotAhead(s, g) && Settling(s, steps, g)
    requires forall id :: id in Stale(s, g) ==>
      exists i :: 0 <= i < |steps| && AcceptedPush(Run(s, steps[..i]), steps[i], g) && steps[i].m.entry == id
    requires steps != [] && AcceptedPush(Run(s, steps[..|steps| - 1]), steps[|steps| - 1], g)
    ensures var t := Run(s, steps);
      && g in t.groups && t.groups[g].kv == s.groups[g].kv && !t.groups[g].pending
      && (forall k :: k in t.envs && k.group == g ==> k.kv >= t.groups[g].kv)
      && (forall id :: id in t.entries && t.entries[id].group == g && !t.entries[id].deleted ==>
            t.entries[id].kv == t.groups[g].kv)
  {
    var n := |steps| - 1;
    var t := Run(s, steps);
    SettlingRun(s, steps, g);
    assert Stale(t, g) == {};
    SettlingInit(s, steps, g);
    PushSettles(Run(s, steps[..n]), steps[n].user, steps[n].m, steps[n].now);
    forall id | id in t.entries && t.entries[id].group == g && !t.entries[id].deleted
      ensures t.entries[id].kv == t.groups[g].kv
    {
      assert id !in Stale(t, g);
    }
  }

  lemma OwnGroupInit(steps: seq<Step>)
    requires steps != [] && forall i :: 0 <= i < |steps| ==> OwnGroup(Run(EMPTY_STATE, steps[..i]), steps[i])
    ensures var n := |steps| - 1;
      forall i :: 0 <= i < n ==> OwnGroup(Run(EMPTY_STATE, steps[..n][..i]), steps[..n][i])
  {
    var init := steps[..|steps| - 1];
    forall i | 0 <= i < |init| ensures OwnGroup(Run(EMPTY_STATE, init[..i]), init[i]) {
      assert init[..i] == steps[..i];
    }
  }

  /** While only own-group mutations are made, nothing live is ever ahead of its group. */
  lemma {:induction false} OwnGroupRunsNotAhead(steps: seq<Step>)
    requires forall i :: 0 <= i < |steps| ==> OwnGroup(Run(EMPTY_STATE, steps[..i]), steps[i])
    ensures forall g :: g in Run(EMPTY_STATE, steps).groups ==> NotAhead(Run(EMPTY_STATE, steps), g)
  {
    if steps != [] {
      var n := |steps| - 1;
      OwnGroupInit(steps);
      OwnGroupRunsNotAhead(steps[..n]);
      ReachableInv(steps[..n]);
      LastNotAhead(Run(EMPTY_STATE, steps[..n]), steps[n]);
    }
  }

  lemma LastNotAhead(s: State, step: Step)
    requires Inv(s) && OwnGroup(s, step) && forall g :: g in s.groups ==> NotAhead(s, g)
    ensures forall g :: g in Apply(s, step).groups ==> NotAhead(Apply(s, step), g)
  {
    forall g | g in Apply(s, step).groups ensures NotAhead(Apply(s, step), g) {
      StepNotAheadAll(s, step, g);
    }
  }

  lemma StepNotAheadAll(s: State, step: Step, g: Id)
    requires Inv(s) && OwnGroup(s, step) && g in Apply(s, step).groups
    requires forall h :: h in s.groups ==> NotAhead(s, h)
    ensures NotAhead(Apply(s, step), g)
  {
    if g !in s.groups {
      assert step.DoCreateGroup?;
    } else if RekeysGroup(s, step, g) {
      OtherStepsKeepEntries(s, step);
      StepExtends(s, step);
    } else {
      StepNotAhead(s, step, g);
    }
  }
}
