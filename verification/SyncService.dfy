/**
  The server as it runs: a service over mutable tables.  Every method is proved to move the tables
  exactly as the corresponding function of module Server does, so everything proved about runs of
  those functions holds of this object.
 */
module SyncService {
  import opened Base
  import opened StringOrder
  import opened Wire
  import opened Server
  import opened ServerInvariant
  import opened Pulling
  import opened KeyDelivery

  /** The list enumerates the set, each element once. */
  ghost predicate Lists<T(!new)>(r: seq<T>, s: set<T>) {
    |r| == |s| && forall x :: x in r <==> x in s
  }

  function ActiveKeys(s: State): map<Id, string> {
    map u | u in s.users && s.users[u].active :: s.users[u].pub
  }

  predicate Sends(s: State, user: Id, only: Option<Id>, declared: map<Id, int>, e: Envelope) {
    var k := EnvKey(e.group, e.kv, user);
    k in Delivered(s, user, declared) && (only.None? || only.value == e.group) && e.wrapped == s.envs[k]
  }

  function StateOf(s: State, g: Id): GroupState
    requires g in s.groups
  {
    GroupState(g, s.groups[g].kv, s.groups[g].pending, s.groups[g].archived, SortedKeys(Missing(s, g)),
               SortedKeys(if s.groups[g].archived then {} else Active(s, g)))
  }

  ghost predicate RightStates(s: State, gs: set<Id>, states: seq<GroupState>) {
    forall i :: 0 <= i < |states| ==> states[i].id in gs && states[i].id in s.groups && states[i] == StateOf(s, states[i].id)
  }

  ghost predicate EveryState(gs: set<Id>, states: seq<GroupState>) {
    forall g :: g in gs ==> exists i :: 0 <= i < |states| && states[i].id == g
  }

  predicate DistinctStates(states: seq<GroupState>) {
    forall i, j :: 0 <= i < j < |states| ==> states[i].id != states[j].id
  }

  /** Each of the groups once, with its current state. */
  ghost predicate ListsGroups(s: State, gs: set<Id>, states: seq<GroupState>) {
    RightStates(s, gs, states) && EveryState(gs, states) && DistinctStates(states)
  }

  lemma EveryOneMore(gs: set<Id>, states: seq<GroupState>, more: GroupState)
    requires EveryState(gs, states)
    ensures EveryState(gs + {more.id}, states + [more])
  {
    var longer := states + [more];
    forall h | h in gs + {more.id} ensures exists i :: 0 <= i < |longer| && longer[i].id == h {
      if h == more.id {
        assert longer[|states|].id == h;
      } else {
        var i :| 0 <= i < |states| && states[i].id == h;
        assert longer[i].id == h;
      }
    }
  }

  lemma RightOneMore(s: State, gs: set<Id>, states: seq<GroupState>, g: Id)
    requires RightStates(s, gs, states) && g in s.groups
    ensures RightStates(s, gs + {g}, states + [StateOf(s, g)])
  {
  }

  lemma ListsOneMore(s: State, gs: set<Id>, states: seq<GroupState>, g: Id)
    requires ListsGroups(s, gs, states) && g in s.groups && g !in gs
    ensures ListsGroups(s, gs + {g}, states + [StateOf(s, g)])
  {
    RightOneMore(s, gs, states, g);
    EveryOneMore(gs, states, StateOf(s, g));
    assert forall i :: 0 <= i < |states| ==> states[i].id != g;
  }

  /** The groups a pull is about. */
  function PulledGroups(s: State, user: Id, only: Option<Id>): set<Id> {
    if only.Some? then {only.value} else UserGroups(s, user)
  }

  ghost predicate Answers(s: State, user: Id, since: int, only: Option<Id>, declared: map<Id, int>, a: PullAnswer) {
    && a.serverSeq == s.seqNo
    && a.changes == Mine(Page(s, Clamp(since), PULL_LIMIT), PulledGroups(s, user, only))
    && (forall e :: e in a.envelopes <==> Sends(s, user, only, declared, e))
    && ListsGroups(s, PulledGroups(s, user, only), a.groups)
  }

  class Service {
    var counter: nat
    var entries: map<Id, Entry>
    var groups: map<Id, Group>
    var members: set<Member>
    var users: map<Id, User>
    var envs: Envelopes
    ghost var log: seq<Commit>
    ghost var granted: set<EnvKey>

    ghost function Tables(): State
      reads this
    {
      State(counter, entries, groups, members, users, envs, log, granted)
    }

    constructor ()
      ensures Tables() == EMPTY_STATE
    {
      counter, entries, groups, members, users, envs := 0, map[], map[], {}, map[], map[];
      log, granted := [], {};
    }

    // ---- push ----

    method UpsertEntry(m: Mutation, now: int) returns (newSeq: int)
      modifies this
      ensures Tables() == Upsert(old(Tables()), m, now)
      ensures newSeq == old(counter) + 1
    {
      counter := counter + 1;
      newSeq := counter;
      var group := if m.entry in entries then entries[m.entry].group else m.group;
      var row := Entry(group, newSeq, m.kv, m.ct, m.deleted, now);
      entries := entries[m.entry := row];
      log := log + [Commit(m, row)];
    }

    method CountEntriesBelowKV(g: Id, kv: int) returns (n: nat)
      ensures n == |Below(entries, g, kv)|
    {
      n := 0;
      var rest := entries.Keys;
      ghost var found: set<Id> := {};
      while rest != {}
        invariant rest <= entries.Keys && n == |found|
        invariant forall id :: id in found <==> id in Below(entries, g, kv) && id !in rest
        decreases |rest|
      {
        var id :| id in rest;
        var e := entries[id];
        if e.group == g && !e.deleted && e.kv < kv {
          found := found + {id};
          n := n + 1;
        }
        rest := rest - {id};
      }
      assert found == Below(entries, g, kv);
    }

    method MaybeFinishRekey(g: Id, kv: int)
      modifies `groups, `envs
      ensures Tables() == FinishRekey(old(Tables()), g, kv)
    {
      var below := CountEntriesBelowKV(g, kv);
      if below > 0 { return; }
      groups := SetPending(groups, g, false);
      envs := DropOldKV(envs, g, kv);
    }

    method PushOne(user: Id, m: Mutation, now: int) returns (r: PushResult, notify: bool)
      modifies this
      ensures (Tables(), r) == Server.PushOne(old(Tables()), user, m, now)
      ensures notify <==> r.Accepted?
    {
      if Member(m.group, user) !in members {
        return Refused(m.entry, ERR_NOT_MEMBER, None), false;
      }
      if m.group !in groups {
        return Refused(m.entry, ERR_NOT_MEMBER, None), false;
      }
      var g := groups[m.group];
      if g.archived {
        return Refused(m.entry, ERR_GROUP_ARCHIVED, None), false;
      }
      if WireSize(m.ct) > MAX_CIPHERTEXT {
        return Refused(m.entry, ERR_TOO_LARGE, None), false;
      }
      if m.kv != g.kv {
        return Refused(m.entry, ERR_KEY_VERSION_STALE, None), false;
      }
      if m.entry in entries {
        var cur := entries[m.entry];
        if m.base != cur.seqNo {
          return Refused(m.entry, ERR_CONFLICT, Some(AsChange(m.entry, cur))), false;
        }
      } else if m.base != 0 {
        return Refused(m.entry, ERR_ENTRY_STATE, None), false;
      }
      var newSeq := UpsertEntry(m, now);
      MaybeFinishRekey(m.group, g.kv);
      return Accepted(m.entry, newSeq), true;
    }

    method Push(user: Id, ms: seq<Mutation>, now: int) returns (results: seq<PushResult>, notified: set<Id>)
      modifies this
      ensures (Tables(), results) == PushAll(old(Tables()), user, ms, now)
      ensures |results| == |ms|
      ensures forall g :: g in notified <==> exists i :: 0 <= i < |ms| && results[i].Accepted? && ms[i].group == g
    {
      results, notified := [], {};
      var i := 0;
      while i < |ms|
        invariant 0 <= i <= |ms| && |results| == i
        invariant (Tables(), results) == PushAll(old(Tables()), user, ms[..i], now)
        invariant forall g :: g in notified <==> exists j :: 0 <= j < i && results[j].Accepted? && ms[j].group == g
      {
        ghost var before := results;
        var r, notify := PushOne(user, ms[i], now);
        assert ms[..i + 1][..i] == ms[..i];
        results := results + [r];
        assert forall j :: 0 <= j < i ==> results[j] == before[j];
        if notify { notified := notified + {ms[i].group}; }
        i := i + 1;
      }
      TakeAll(ms, i);
    }

    // ---- keys ----

    method ActiveMemberIDs(g: Id) returns (active: seq<Id>)
      ensures Lists(active, Active(Tables(), g))
    {
      active := [];
      var rest := members;
      ghost var done: set<Member> := {};
      while rest != {}
        invariant done !! rest && done + rest == members
        invariant Lists(active, set u | u in Active(Tables(), g) && Member(g, u) in done)
        decreases |rest|
      {
        var m :| m in rest;
        ghost var found := set u | u in Active(Tables(), g) && Member(g, u) in done;
        if m.group == g && m.user in users && users[m.user].active {
          assert (set u | u in Active(Tables(), g) && Member(g, u) in done + {m}) == found + {m.user};
          active := active + [m.user];
        } else {
          assert (set u | u in Active(Tables(), g) && Member(g, u) in done + {m}) == found;
        }
        done, rest := done + {m}, rest - {m};
      }
      assert (set u | u in Active(Tables(), g) && Member(g, u) in done) == Active(Tables(), g);
    }

    /** Inside one transaction: insert row by row, give up on the first clash. */
    method InsertAll(base: Envelopes, g: Id, kv: int, ups: seq<Upload>) returns (ok: bool, out: Envelopes)
      ensures ok <==> DistinctUsers(ups) && forall i :: 0 <= i < |ups| ==> EnvKey(g, kv, ups[i].user) !in base
      ensures ok ==> out == InsertEnvs(base, g, kv, ups)
    {
      out := base;
      var i := 0;
      while i < |ups|
        invariant 0 <= i <= |ups|
        invariant out == InsertEnvs(base, g, kv, ups[..i])
        invariant DistinctUsers(ups[..i])
        invariant forall j :: 0 <= j < i ==> EnvKey(g, kv, ups[j].user) !in base
      {
        var key := EnvKey(g, kv, ups[i].user);
        InsertedKeys(base, g, kv, ups[..i]);
        if key in out {
          assert key in base || exists j :: 0 <= j < i && ups[..i][j].user == ups[i].user;
          return false, base;
        }
        forall j | 0 <= j < i ensures ups[..i][j].user != ups[i].user {
          assert EnvKey(g, kv, ups[..i][j].user) in EnvKeys(g, kv, ups[..i]);
        }
        out := out[key := ups[i].wrapped];
        assert ups[..i + 1][..i] == ups[..i];
        i := i + 1;
      }
      TakeAll(ups, i);
      ok := true;
    }

    method AppendKeys(g: Id, kv: int, ups: seq<Upload>) returns (code: int)
      modifies this
      ensures (Tables(), code) == Server.AppendEnvelopes(old(Tables()), g, kv, ups)
    {
      var ok, out := InsertAll(envs, g, kv, ups);
      if !ok { return ERR_BAD_ENVELOPES; }
      envs := out;
      granted := granted + EnvKeys(g, kv, ups);
      return 0;
    }

    method CommitKeys(g: Id, kv: int, ups: seq<Upload>) returns (code: int)
      requires g in groups
      modifies this
      ensures (Tables(), code) == Server.CommitRekey(old(Tables()), g, kv, ups)
    {
      var below := CountEntriesBelowKV(g, kv);
      var ok, out := InsertAll(DropKV(envs, g, kv), g, kv, ups);
      if !ok { return ERR_INTERNAL; }
      envs := out;
      groups := groups[g := groups[g].(kv := kv)];
      granted := granted + EnvKeys(g, kv, ups);
      if below == 0 {
        groups := SetPending(groups, g, false);
        envs := DropOldKV(envs, g, kv);
      }
      return 0;
    }

    method UploadKeys(user: Id, g: Id, kv: int, ups: seq<Upload>) returns (code: int)
      modifies this
      ensures (Tables(), code) == Server.UploadKeys(old(Tables()), user, g, kv, ups)
    {
      if Member(g, user) !in members { return ERR_NOT_MEMBER; }
      if g !in groups { return ERR_NOT_MEMBER; }
      if groups[g].archived { return ERR_GROUP_ARCHIVED; }
      var active := ActiveMemberIDs(g);
      var inside := OnlyNames(ups, active);
      if !inside { return ERR_BAD_ENVELOPES; }
      if kv == groups[g].kv {
        code := AppendKeys(g, kv, ups);
      } else if kv == groups[g].kv + 1 {
        if |ups| != |active| { return ERR_BAD_ENVELOPES; }
        var complete := NamesAll(ups, active);
        if !complete { return ERR_BAD_ENVELOPES; }
        code := CommitKeys(g, kv, ups);
      } else {
        return ERR_BAD_ENVELOPES;
      }
    }

    method OnlyNames(ups: seq<Upload>, active: seq<Id>) returns (r: bool)
      ensures r <==> forall u :: u in UploadUsers(ups) ==> u in active
    {
      var i := 0;
      while i < |ups|
        invariant 0 <= i <= |ups|
        invariant forall j :: 0 <= j < i ==> ups[j].user in active
      {
        if ups[i].user !in active {
          assert ups[i].user in UploadUsers(ups);
          return false;
        }
        i := i + 1;
      }
      forall u | u in UploadUsers(ups) ensures u in active {
        var j :| 0 <= j < |ups| && ups[j].user == u;
      }
      return true;
    }

    method NamesAll(ups: seq<Upload>, active: seq<Id>) returns (r: bool)
      ensures r <==> forall u :: u in active ==> u in UploadUsers(ups)
    {
      var submitted := set i | 0 <= i < |ups| :: ups[i].user;
      assert submitted == UploadUsers(ups);
      var i := 0;
      while i < |active|
        invariant 0 <= i <= |active|
        invariant forall j :: 0 <= j < i ==> active[j] in submitted
      {
        if active[i] !in submitted { return false; }
        i := i + 1;
      }
      return true;
    }

    // ---- admin ----

    method CreateUser(uid: Id, username: string, name: string, pub: string, attested: bool, admin: bool) returns (code: int)
      modifies this
      ensures Tables() == Server.CreateUser(old(Tables()), uid, username, name, pub, attested, admin)
      ensures code == 0 ==> uid in users && users[uid] == User(username, name, pub, true, admin)
      ensures code != 0 ==> Tables() == old(Tables())
    {
      if username == "" || name == "" || pub == "" { return ERR_BAD_REQUEST; }
      if !attested { return ERR_BAD_REQUEST; }
      if exists u :: u in users && users[u].username == username { return ERR_BAD_REQUEST; }
      if exists u :: u in users && users[u].pub == pub { return ERR_BAD_REQUEST; }
      if uid in users { return ERR_INTERNAL; } // identifiers are new, or the insert fails
      users := users[uid := User(username, name, pub, true, admin)];
      return 0;
    }

    /** The active users with their public keys. */
    method ListUsers() returns (keys: map<Id, string>)
      ensures keys == ActiveKeys(Tables())
    {
      keys := map u | u in users && users[u].active :: users[u].pub;
    }

    method Revoke(uid: Id, confirm: string)
      modifies this
      ensures Tables() == Server.Revoke(old(Tables()), uid, confirm)
    {
      if uid !in users || confirm != users[uid].name { return; }
      var gs := set g | g in groups && Member(g, uid) in members;
      assert gs == UserGroups(Tables(), uid);
      users := users[uid := users[uid].(active := false)];
      envs := DropUser(envs, uid);
      LeaveGroups(gs, uid);
    }

    method LeaveGroups(gs: set<Id>, uid: Id)
      modifies `members, `groups
      ensures members == set m | m in old(members) && !(m.group in gs && m.user == uid)
      ensures groups == MarkPending(old(groups), gs)
    {
      var rest := gs;
      ghost var done: set<Id> := {};
      while rest != {}
        invariant done !! rest && done + rest == gs
        invariant members == set m | m in old(members) && !(m.group in done && m.user == uid)
        invariant groups == MarkPending(old(groups), done)
        decreases |rest|
      {
        var g :| g in rest;
        members := members - {Member(g, uid)};
        groups := SetPending(groups, g, true);
        done, rest := done + {g}, rest - {g};
      }
      assert done == gs;
    }

    method FlagGroups(gs: set<Id>)
      modifies `groups
      ensures groups == MarkPending(old(groups), gs)
    {
      var rest := gs;
      ghost var done: set<Id> := {};
      while rest != {}
        invariant done !! rest && done + rest == gs
        invariant groups == MarkPending(old(groups), done)
        decreases |rest|
      {
        var g :| g in rest;
        groups := SetPending(groups, g, true);
        done, rest := done + {g}, rest - {g};
      }
      assert done == gs;
    }

    method KeyfileReset(uid: Id, pub: string, attested: bool)
      modifies this
      ensures Tables() == Server.KeyfileReset(old(Tables()), uid, pub, attested)
    {
      if uid !in users || !users[uid].active || !attested { return; }
      var gs := set g | g in groups && Member(g, uid) in members;
      assert gs == UserGroups(Tables(), uid);
      users := users[uid := users[uid].(pub := pub)];
      envs := DropUser(envs, uid);
      FlagGroups(gs);
    }

    method AddMember(g: Id, u: Id)
      modifies this
      ensures Tables() == Server.AddMember(old(Tables()), g, u)
    {
      if Member(g, u) in members { return; }
      if u !in users || !users[u].active { return; }
      if g !in groups { return; } // the foreign key refuses the row
      members := members + {Member(g, u)};
    }

    method RemoveMember(g: Id, u: Id, confirm: string)
      modifies this
      ensures Tables() == Server.RemoveMember(old(Tables()), g, u, confirm)
    {
      if u !in users || confirm != users[u].name { return; }
      members := members - {Member(g, u)};
      envs := DropGroupUser(envs, g, u);
      groups := SetPending(groups, g, true);
    }

    method CreateGroup(g: Id, name: string, caller: Id)
      modifies this
      ensures Tables() == Server.CreateGroup(old(Tables()), g, name, caller)
    {
      if name == "" || g in groups { return; }
      groups := groups[g := Group(name, 1, false, false)];
      if caller in users && users[caller].active && users[caller].admin {
        members := members + {Member(g, caller)};
      }
    }

    method TriggerRekey(g: Id)
      modifies this
      ensures Tables() == Server.TriggerRekey(old(Tables()), g)
    {
      if g !in groups { return; }
      if !groups[g].pending { groups := groups[g := groups[g].(pending := true)]; }
    }

    method Archive(g: Id, confirm: string)
      modifies this
      ensures Tables() == Server.Archive(old(Tables()), g, confirm)
    {
      if g !in groups || confirm != groups[g].name { return; }
      if !groups[g].archived { groups := groups[g := groups[g].(archived := true)]; }
    }

    method Unarchive(g: Id)
      modifies this
      ensures Tables() == Server.Unarchive(old(Tables()), g)
    {
      if g !in groups { return; }
      if groups[g].archived { groups := groups[g := groups[g].(archived := false)]; }
    }

    method CleanTombstones(before: int)
      modifies this
      ensures Tables() == Server.CleanTombstones(old(Tables()), before)
    {
      entries := map id | id in entries && !(entries[id].deleted && entries[id].at < before) :: entries[id];
    }

    // ---- pull ----

    /** `ORDER BY seq LIMIT`: the lowest row above the cursor, again and again. */
    method PullChanges(since: nat, limit: nat) returns (page: seq<Change>)
      requires Stored(Tables())
      ensures page == Page(Tables(), since, limit)
    {
      ghost var s := Tables();
      page := [];
      var at: nat := since;
      var more := exists id :: id in entries && entries[id].seqNo > at;
      while |page| < limit && more
        invariant Tables() == s && |page| <= limit
        invariant more <==> exists id :: id in s.entries && s.entries[id].seqNo > at
        invariant Page(s, since, limit) == page + Page(s, at, limit - |page|)
        decreases limit - |page|
      {
        var id := NextRow(at);
        PageGrows(s, since, limit, page, at, id);
        page := page + [AsChange(id, entries[id])];
        at := entries[id].seqNo;
        more := exists id :: id in entries && entries[id].seqNo > at;
      }
      PageEnd(s, at, limit - |page|);
    }

    method NextRow(at: nat) returns (next: Id)
      requires exists id :: id in entries && entries[id].seqNo > at
      ensures LowestAbove(Tables(), at, next)
    {
      ghost var id0 :| id0 in entries && entries[id0].seqNo > at;
      ghost var least := LeastRow(Tables(), at, id0);
      next :| next in entries && entries[next].seqNo > at &&
              forall j :: j in entries && entries[j].seqNo > at ==> entries[next].seqNo <= entries[j].seqNo;
    }

    /** Members lacking an envelope and all active members of a group, both sorted. */
    method MissingEnvelopes(g: Id) returns (missing: seq<Id>, active: seq<Id>)
      requires g in groups
      ensures missing == SortedKeys(Missing(Tables(), g))
      ensures active == SortedKeys(if groups[g].archived then {} else Active(Tables(), g))
    {
      if groups[g].archived { return [], []; }
      var ids := ActiveMemberIDs(g);
      var activeSet := set u | u in ids;
      assert activeSet == Active(Tables(), g);
      active := SortedKeys(activeSet);
      var has := set k | k in envs && k.group == g && k.kv == groups[g].kv :: k.user;
      MissingIsDifference(Tables(), g, has);
      if has == {} {
        assert activeSet - has == activeSet;
        return active, active;
      }
      var lacking := Lacking(active, has);
      assert lacking == activeSet - has;
      missing := SortedKeys(lacking);
    }

    static lemma MissingIsDifference(s: State, g: Id, has: set<Id>)
      requires g in s.groups && !s.groups[g].archived
      requires has == set k | k in s.envs && k.group == g && k.kv == s.groups[g].kv :: k.user
      ensures Missing(s, g) == Active(s, g) - has
    {
      forall u ensures u in has <==> EnvKey(g, s.groups[g].kv, u) in s.envs {
        if EnvKey(g, s.groups[g].kv, u) in s.envs { assert EnvKey(g, s.groups[g].kv, u).user in has; }
      }
    }

    static method Lacking(active: seq<Id>, has: set<Id>) returns (lacking: set<Id>)
      ensures lacking == set u | u in active && u !in has
    {
      lacking := {};
      var i := 0;
      while i < |active|
        invariant 0 <= i <= |active|
        invariant lacking == set u | u in active[..i] && u !in has
      {
        assert active[..i + 1] == active[..i] + [active[i]];
        if active[i] !in has { lacking := lacking + {active[i]}; }
        i := i + 1;
      }
      TakeAll(active, i);
    }

    /** The user's envelopes above the versions they declared, of one group if only that is asked for. */
    method PullEnvelopes(user: Id, only: Option<Id>, declared: map<Id, int>) returns (mine: seq<Envelope>)
      ensures forall e :: e in mine <==> Sends(Tables(), user, only, declared, e)
    {
      mine := [];
      var rest := envs.Keys;
      while rest != {}
        invariant rest <= envs.Keys
        invariant forall e :: e in mine <==>
          Sends(Tables(), user, only, declared, e) && EnvKey(e.group, e.kv, user) !in rest
        decreases |rest|
      {
        var k :| k in rest;
        if k.user == user {
          if (only.None? || only.value == k.group) && !(k.group in declared && k.kv <= declared[k.group]) {
            mine := mine + [Envelope(k.group, k.kv, envs[k])];
          }
        }
        rest := rest - {k};
      }
    }

    /** The page filtered to the user's groups. */
    method PullOwn(since: int, inGroups: set<Id>) returns (changes: seq<Change>)
      requires Stored(Tables())
      ensures changes == Mine(Page(Tables(), Clamp(since), PULL_LIMIT), inGroups)
    {
      var page := PullChanges(Clamp(since), PULL_LIMIT);
      changes := [];
      var i := 0;
      while i < |page|
        invariant 0 <= i <= |page|
        invariant changes == Mine(page[..i], inGroups)
      {
        MineSnoc(page[..i], page[i], inGroups);
        assert page[..i + 1] == page[..i] + [page[i]];
        if page[i].group in inGroups { changes := changes + [page[i]]; }
        i := i + 1;
      }
      TakeAll(page, i);
    }

    /** What the response says about each of the groups, in the order in which they are listed. */
    method GroupStates(gs: set<Id>) returns (states: seq<GroupState>)
      requires gs <= groups.Keys
      ensures ListsGroups(Tables(), gs, states)
    {
      states := [];
      var rest := gs;
      while rest != {}
        invariant rest <= gs && ListsGroups(Tables(), gs - rest, states)
        decreases |rest|
      {
        var g :| g in rest;
        var missing, active := MissingEnvelopes(g);
        ListsOneMore(Tables(), gs - rest, states, g);
        assert gs - (rest - {g}) == gs - rest + {g};
        states := states + [GroupState(g, groups[g].kv, groups[g].pending, groups[g].archived, missing, active)];
        rest := rest - {g};
      }
      assert gs - rest == gs;
    }

    /** One pull; refused if a single group is asked for that the user does not belong to. */
    method Pull(user: Id, since: int, only: Option<Id>, declared: map<Id, int>) returns (code: int, a: PullAnswer)
      requires Inv(Tables())
      ensures code == if only.Some? && only.value !in UserGroups(Tables(), user) then ERR_NOT_MEMBER else 0
      ensures code == 0 ==> Answers(Tables(), user, since, only, declared, a)
    {
      var inGroups := set g | g in groups && Member(g, user) in members;
      assert inGroups == UserGroups(Tables(), user);
      a := PullAnswer(counter, [], [], []);
      if only.Some? {
        if only.value !in inGroups { return ERR_NOT_MEMBER, a; }
        inGroups := {only.value};
      }
      var changes := PullOwn(since, inGroups);
      var mine := PullEnvelopes(user, only, declared);
      var states := GroupStates(inGroups);
      return 0, PullAnswer(counter, changes, mine, states);
    }
  }
}
