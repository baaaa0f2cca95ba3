/** Key rotation end to end: one client commits a rekey, re-encrypts what it holds and pushes it. */
module RekeyFlow {
  import opened Base
  import opened Wire
  import opened Server
  import opened ServerInvariant
  import opened ServerHistory
  import opened Rekey
  import opened Client
  import opened Agreement
  import opened ClientSafety

  /** No rekey is pending and no envelope below the group's version is left. */
  ghost predicate Clear(s: State, g: Id)
    requires g in s.groups
  {
    !s.groups[g].pending && forall k :: k in s.envs && k.group == g ==> k.kv >= s.groups[g].kv
  }

  /** A rotation is over: cleared, with every live entry at exactly the group's version. */
  ghost predicate Settled(s: State, g: Id) {
    && g in s.groups && Clear(s, g)
    && forall id :: id in s.entries && s.entries[id].group == g && !s.entries[id].deleted ==>
         s.entries[id].kv == s.groups[g].kv
  }

  /** What the steps of a rotation keep. */
  ghost predicate Rotating(s: State, g: Id) {
    g in s.groups && NotAhead(s, g) && (Stale(s, g) == {} ==> Clear(s, g))
  }

  ghost predicate SameGroup(s: State, t: State, g: Id)
    requires g in s.groups
  {
    g in t.groups && t.groups[g].kv == s.groups[g].kv && t.groups[g].archived == s.groups[g].archived
    && t.members == s.members
  }

  lemma PushRotates(s: State, user: Id, m: Mutation, now: int, g: Id)
    requires Rotating(s, g) && OwnGroup(s, Push(user, m, now))
    ensures var t := PushOne(s, user, m, now).0;
      && Rotating(t, g) && SameGroup(s, t, g) && Stale(t, g) <= Stale(s, g)
      && (forall id :: id != m.entry ==> Get(t.entries, id) == Get(s.entries, id))
      && (Accepts(s, user, m) && m.group == g ==> m.entry !in Stale(t, g))
  {
    var step := Push(user, m, now);
    StepShrinksStale(s, step, g);
    StepNotAhead(s, step, g);
    if Accepts(s, user, m) {
      PushSettles(s, user, m, now);
      PushAndStale(s, user, m, now, g);
    }
  }

  // ---- the closing batch ----

  /** The client's row for an entry, ready to replace what the server has. */
  predicate Ready(s: State, c: Store, g: Id, id: Id)
    requires g in s.groups
  {
    && id in s.entries && id in c.rows && var row := c.rows[id];
    row.dirty && row.group == g && row.kv == s.groups[g].kv && row.seqNo == s.entries[id].seqNo
    && WireSize(row.ct) <= MAX_CIPHERTEXT
  }

  predicate NamesOwnGroups(s: State, c: Store) {
    forall id :: id in c.rows && id in s.entries ==> c.rows[id].group == s.entries[id].group
  }

  lemma {:induction false} BatchRotates(s: State, c: Store, ms: seq<Mutation>, user: Id, now: int, g: Id)
    requires Rotating(s, g) && Sent(c, ms) && DistinctEntries(ms) && NamesOwnGroups(s, c)
    requires Member(g, user) in s.members && !s.groups[g].archived
    requires forall id :: id in Stale(s, g) ==> Ready(s, c, g, id)
    ensures var t := PushAll(s, user, ms, now).0;
      && Rotating(t, g) && SameGroup(s, t, g) && Stale(t, g) <= Stale(s, g)
      && (forall id :: (forall i :: 0 <= i < |ms| ==> ms[i].entry != id) ==> Get(t.entries, id) == Get(s.entries, id))
      && forall i :: 0 <= i < |ms| ==> ms[i].entry !in Stale(t, g)
  {
    if ms != [] {
      var n := |ms| - 1;
      BatchRotates(s, c, ms[..n], user, now, g);
      var p := PushAll(s, user, ms[..n], now).0;
      assert Get(p.entries, ms[n].entry) == Get(s.entries, ms[n].entry);
      LastPush(s, p, c, ms[n], user, now, g);
      forall i | 0 <= i < |ms| ensures ms[i].entry !in Stale(PushAll(s, user, ms, now).0, g) {
        if i < n { assert ms[..n][i] == ms[i]; }
      }
      forall id | forall i :: 0 <= i < |ms| ==> ms[i].entry != id
        ensures Get(PushAll(s, user, ms, now).0.entries, id) == Get(s.entries, id)
      {
        assert ms[n].entry != id;
        assert forall i :: 0 <= i < n ==> ms[..n][i] == ms[i];
      }
    }
  }

  lemma LastPush(s: State, p: State, c: Store, m: Mutation, user: Id, now: int, g: Id)
    requires g in s.groups && Rotating(p, g) && SameGroup(s, p, g) && Stale(p, g) <= Stale(s, g)
    requires Get(p.entries, m.entry) == Get(s.entries, m.entry)
    requires m.entry in c.rows && m == AsMutation(m.entry, c.rows[m.entry]) && NamesOwnGroups(s, c)
    requires Member(g, user) in s.members && !s.groups[g].archived
    requires forall id :: id in Stale(s, g) ==> Ready(s, c, g, id)
    ensures var t := PushOne(p, user, m, now).0;
      && Rotating(t, g) && SameGroup(s, t, g) && Stale(t, g) <= Stale(p, g)
      && (forall id :: id != m.entry ==> Get(t.entries, id) == Get(p.entries, id))
      && m.entry !in Stale(t, g)
  {
    assert OwnGroup(p, Push(user, m, now)) by {
      if m.entry in p.entries { assert m.entry in s.entries && p.entries[m.entry] == s.entries[m.entry]; }
    }
    PushRotates(p, user, m, now, g);
    if m.entry in Stale(p, g) {
      assert Ready(s, c, g, m.entry);
      assert Accepts(p, user, m);
    }
  }

  lemma {:induction false} OutgoingHas(c: Store, ids: seq<Id>, id: Id)
    requires Listing(ids, c.rows) && id in ids && c.rows[id].dirty && c.rows[id].group !in c.held
    ensures exists i :: 0 <= i < |Outgoing(c, ids)| && Outgoing(c, ids)[i].entry == id
  {
    var n := |ids| - 1;
    var init := Outgoing(c, ids[..n]);
    if id == ids[n] {
      assert Outgoing(c, ids)[|init|].entry == id;
    } else {
      OutgoingHas(c, ids[..n], id);
      var i :| 0 <= i < |init| && init[i].entry == id;
      assert Outgoing(c, ids)[i] == init[i];
    }
  }

  /** A client that holds a ready row for every stale entry settles the group with one batch. */
  lemma OneBatchSettles(s: State, c: Store, ids: seq<Id>, user: Id, now: int, g: Id)
    requires Rotating(s, g) && NamesOwnGroups(s, c) && Member(g, user) in s.members && !s.groups[g].archived
    requires Listing(ids, c.rows) && c.rows.Keys == (set x | x in ids) && g !in c.held
    requires forall id :: id in Stale(s, g) ==> Ready(s, c, g, id)
    ensures var t := PushAll(s, user, Outgoing(c, ids), now).0;
      Settled(t, g) && t.groups[g].kv == s.groups[g].kv
  {
    var ms := Outgoing(c, ids);
    OutgoingSent(c, ids);
    BatchRotates(s, c, ms, user, now, g);
    var t := PushAll(s, user, ms, now).0;
    forall id | id in Stale(s, g) ensures id !in Stale(t, g) {
      assert Ready(s, c, g, id) && id in ids;
      OutgoingHas(c, ids, id);
    }
    assert Stale(t, g) == {};
    forall id | id in t.entries && t.entries[id].group == g && !t.entries[id].deleted
      ensures t.entries[id].kv == t.groups[g].kv
    {
      assert id !in Stale(t, g);
    }
  }

  // ---- from the commit on ----

  /** The client holds every live entry of the group at the server's version and can open it. */
  ghost predicate HoldsGroup(s: State, c: Store, g: Id, newKV: int) {
    forall id :: id in s.entries && s.entries[id].group == g && !s.entries[id].deleted ==>
      && id in c.rows && c.rows[id].seqNo == s.entries[id].seqNo
      && c.rows[id].group == g && c.rows[id].kv != newKV && Decrypt(c.deks, g, id, c.rows[id].ct).Some?
  }

  /** Other clients' pushes that leave the group alone. */
  predicate AwayFrom(s: State, step: Step, g: Id) {
    step.Push? && step.m.group != g && OwnGroup(s, step)
  }

  ghost predicate AllAway(s: State, steps: seq<Step>, g: Id) {
    forall i :: 0 <= i < |steps| ==> AwayFrom(Run(s, steps[..i]), steps[i], g)
  }

  ghost predicate SameLive(s: State, t: State, g: Id) {
    forall id :: id in t.entries && t.entries[id].group == g ==> Get(s.entries, id) == Some(t.entries[id])
  }

  lemma AwayInit(s: State, steps: seq<Step>, g: Id)
    requires AllAway(s, steps, g) && steps != []
    ensures var n := |steps| - 1; AllAway(s, steps[..n], g) && AwayFrom(Run(s, steps[..n]), steps[n], g)
  {
    var init := steps[..|steps| - 1];
    forall i | 0 <= i < |init| ensures AwayFrom(Run(s, init[..i]), init[i], g) { assert init[..i] == steps[..i]; }
  }

  lemma AwayStep(s: State, mid: State, step: Step, g: Id)
    requires g in s.groups && Rotating(mid, g) && SameGroup(s, mid, g) && SameLive(s, mid, g) && AwayFrom(mid, step, g)
    ensures var t := Apply(mid, step); Rotating(t, g) && SameGroup(s, t, g) && SameLive(s, t, g)
  {
    PushRotates(mid, step.user, step.m, step.now, g);
  }

  lemma {:induction false} AwayChangesNothing(s: State, steps: seq<Step>, g: Id)
    requires Rotating(s, g) && AllAway(s, steps, g)
    ensures var t := Run(s, steps); Rotating(t, g) && SameGroup(s, t, g) && SameLive(s, t, g)
  {
    if steps != [] {
      var n := |steps| - 1;
      AwayInit(s, steps, g);
      AwayChangesNothing(s, steps[..n], g);
      AwayStep(s, Run(s, steps[..n]), steps[n], g);
    }
  }

  lemma CommitRotates(s: State, user: Id, g: Id, ups: seq<Upload>)
    requires g in s.groups && NotAhead(s, g) && IsRekey(s, user, g, s.groups[g].kv + 1, ups)
    ensures var t := UploadKeys(s, user, g, s.groups[g].kv + 1, ups).0;
      && Rotating(t, g) && t.groups[g].kv == s.groups[g].kv + 1 && !t.groups[g].archived
      && t.entries == s.entries && t.members == s.members && Member(g, user) in t.members
  {
  }

  /**
    End to end.  The client commits the rekey (`ups` was accepted), stores the new key and
    re-encrypts; others may then push to other groups; whatever the client did meanwhile left the
    group's rows as re-encryption wrote them.  One batch of the client then ends the rotation: the
    pending flag is clear, no old envelope is left and every live entry is at the new version.
   */
  lemma RekeyByOneClient(s: State, c: Store, user: Id, g: Id, key: Key, ups: seq<Upload>, ids: seq<Id>,
                         others: seq<Step>, d: Store, order: seq<Id>, now: int)
    requires g in s.groups && NotAhead(s, g) && IsRekey(s, user, g, s.groups[g].kv + 1, ups)
    requires Listing(ids, c.rows) && c.rows.Keys == (set x | x in ids)
    requires HoldsGroup(s, SetDEK(c, g, s.groups[g].kv + 1, key), g, s.groups[g].kv + 1)
    requires AllAway(UploadKeys(s, user, g, s.groups[g].kv + 1, ups).0, others, g)
    requires var r := Reencrypt(SetDEK(c, g, s.groups[g].kv + 1, key), g, s.groups[g].kv + 1, ids);
      forall id :: id in r.rows && r.rows[id].group == g ==>
        Get(d.rows, id) == Some(r.rows[id]) && WireSize(r.rows[id].ct) <= MAX_CIPHERTEXT
    requires NamesOwnGroups(Run(UploadKeys(s, user, g, s.groups[g].kv + 1, ups).0, others), d)
    requires Listing(order, d.rows) && d.rows.Keys == (set x | x in order) && g !in d.held
    ensures var before := Run(UploadKeys(s, user, g, s.groups[g].kv + 1, ups).0, others);
      var t := PushAll(before, user, Outgoing(d, order), now).0;
      Settled(t, g) && t.groups[g].kv == s.groups[g].kv + 1
  {
    var newKV := s.groups[g].kv + 1;
    var committed := UploadKeys(s, user, g, newKV, ups).0;
    CommitRotates(s, user, g, ups);
    AwayChangesNothing(committed, others, g);
    var before := Run(committed, others);
    var keyed := SetDEK(c, g, newKV, key);
    forall id | id in Stale(before, g) ensures Ready(before, d, g, id) {
      assert Get(s.entries, id) == Some(before.entries[id]);
      assert Rewritten(keyed, g, newKV, id);
      ReencryptRows(keyed, g, newKV, ids, id);
      assert id in ids;
    }
    OneBatchSettles(before, d, order, user, now, g);
  }
}
