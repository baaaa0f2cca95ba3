/**
  Which envelopes a pull delivers, and what that means for a client that lost a race for a rekey.
 */
module KeyDelivery {
  import opened Base
  import opened Wire
  import opened Server
  import opened ServerInvariant
  import opened ServerHistory
  import opened Client
  import opened ClientSafety

  /** The user's own envelopes above the versions they declared. */
  function Delivered(s: State, user: Id, declared: map<Id, int>): set<EnvKey> {
    set k | k in s.envs && k.user == user && !(k.group in declared && k.kv <= declared[k.group])
  }

  /** For each group, the highest version of which the client has a key. */
  ghost predicate Declares(deks: map<Slot, Key>, declared: map<Id, int>) {
    && (forall g :: g in declared ==> Slot(g, declared[g]) in deks)
    && forall k :: k in deks ==> k.group in declared && k.kv <= declared[k.group]
  }

  /** An envelope is delivered exactly when it is newer than every key the client has for its group. */
  lemma DeliveredIff(s: State, c: Store, user: Id, declared: map<Id, int>, k: EnvKey)
    requires Declares(c.deks, declared) && k in s.envs && k.user == user
    ensures k in Delivered(s, user, declared) <==> forall kv :: HasKey(c, k.group, kv) ==> kv < k.kv
  {
    if k in Delivered(s, user, declared) {
      forall kv | HasKey(c, k.group, kv) ensures kv < k.kv { assert Slot(k.group, kv) in c.deks; }
    } else {
      assert HasKey(c, k.group, declared[k.group]);
    }
  }

  /** After one member's rekey, another upload for the same version is refused. */
  lemma RaceLoserRefused(s: State, winner: Id, loser: Id, g: Id, ups: seq<Upload>, others: seq<Upload>)
    requires Inv(s) && g in s.groups && others != []
    requires IsRekey(s, winner, g, s.groups[g].kv + 1, ups) && Member(g, loser) in s.members
    ensures var t := UploadKeys(s, winner, g, s.groups[g].kv + 1, ups).0;
      UploadKeys(t, loser, g, s.groups[g].kv + 1, others) == (t, ERR_BAD_ENVELOPES)
  {
    var kv := s.groups[g].kv + 1;
    var t := UploadKeys(s, winner, g, kv, ups).0;
    RekeyNamesEachMemberOnce(s, winner, g, ups);
    if UploadUsers(others) <= Active(t, g) {
      assert others[0].user in UploadUsers(others);
      assert others[0].user !in Missing(t, g);
      assert EnvKey(g, kv, others[0].user) in t.envs;
    }
  }

  // ---- how a client comes by keys ----

  /**
    An ordinary round, which declares what the client has and learns some of what is delivered; a
    rekey attempt, which starts from the version the group had at the pull; and the first key of a
    group.  `s` is the server at the pull.
   */
  datatype KeyEvent =
    | Ordinary(s: State, declared: map<Id, int>, learned: map<Slot, Key>)
    | Rotates(s: State, g: Id, key: Key)
    | FirstKey(g: Id, kv: int, key: Key)

  ghost predicate CanHappen(deks: map<Slot, Key>, me: Id, ev: KeyEvent) {
    match ev
    case Ordinary(s, declared, learned) =>
      Declares(deks, declared) && forall k :: k in learned ==> EnvKey(k.group, k.kv, me) in Delivered(s, me, declared)
    case Rotates(s, g, _) => g in s.groups
    case FirstKey(g, _, _) => forall k :: k in deks ==> k.group != g
  }

  function KeysThen(deks: map<Slot, Key>, ev: KeyEvent): map<Slot, Key> {
    match ev
    case Ordinary(_, _, learned) => deks + learned
    case Rotates(s, g, key) => if g in s.groups then deks[Slot(g, s.groups[g].kv + 1) := key] else deks
    case FirstKey(g, kv, key) => deks[Slot(g, kv) := key]
  }

  function KeysAfter(deks: map<Slot, Key>, evs: seq<KeyEvent>): map<Slot, Key> {
    if evs == [] then deks else KeysThen(KeysAfter(deks, evs[..|evs| - 1]), evs[|evs| - 1])
  }

  /** The event sees the server at or after the state s. */
  ghost predicate Later(s: State, ev: KeyEvent) {
    !ev.FirstKey? ==> Extends(s, ev.s)
  }

  /** No event learns a key of a version the client declared. */
  lemma LearnsOnlyNewKeys(deks: map<Slot, Key>, me: Id, ev: KeyEvent, k: Slot)
    requires ev.Ordinary? && CanHappen(deks, me, ev) && k in deks
    ensures k !in ev.learned
  {
    assert EnvKey(k.group, k.kv, me) !in Delivered(ev.s, me, ev.declared);
  }

  lemma EventKeepsKey(s: State, deks: map<Slot, Key>, me: Id, ev: KeyEvent, g: Id)
    requires g in s.groups && Slot(g, s.groups[g].kv) in deks && CanHappen(deks, me, ev) && Later(s, ev)
    ensures Get(KeysThen(deks, ev), Slot(g, s.groups[g].kv)) == Get(deks, Slot(g, s.groups[g].kv))
  {
    if ev.Ordinary? { LearnsOnlyNewKeys(deks, me, ev, Slot(g, s.groups[g].kv)); }
  }

  /** Whatever rounds, rekeys and first keys follow, a key of the group's version at s stays as it is. */
  lemma {:induction false} EventsKeepKey(s: State, deks: map<Slot, Key>, me: Id, evs: seq<KeyEvent>, g: Id)
    requires g in s.groups && Slot(g, s.groups[g].kv) in deks
    requires forall i :: 0 <= i < |evs| ==> CanHappen(KeysAfter(deks, evs[..i]), me, evs[i]) && Later(s, evs[i])
    ensures Get(KeysAfter(deks, evs), Slot(g, s.groups[g].kv)) == Get(deks, Slot(g, s.groups[g].kv))
  {
    if evs != [] {
      var n := |evs| - 1;
      forall i | 0 <= i < n ensures CanHappen(KeysAfter(deks, evs[..n][..i]), me, evs[..n][i]) && Later(s, evs[..n][i]) {
        assert evs[..n][..i] == evs[..i];
      }
      EventsKeepKey(s, deks, me, evs[..n], g);
      EventKeepsKey(s, KeysAfter(deks, evs[..n]), me, evs[n], g);
    }
  }

  /**
    The loser of a race has stored a key of its own for the new version.  Its upload is refused, and
    through every sequence of ordinary rounds, later rekeys and first keys it keeps its own key for
    that version: no such round ever replaces it with the key that won, and no live change of that
    version sealed under the winning key ever opens.
   */
  lemma RaceLoserNeverGetsTheKey(s: State, winner: Id, loser: Id, g: Id, ups: seq<Upload>, others: seq<Upload>,
                                 deks: map<Slot, Key>, own: Key, evs: seq<KeyEvent>, d: Store, ch: Change)
    requires Inv(s) && g in s.groups && others != []
    requires IsRekey(s, winner, g, s.groups[g].kv + 1, ups) && Member(g, loser) in s.members
    requires var t := UploadKeys(s, winner, g, s.groups[g].kv + 1, ups).0;
      var held := deks[Slot(g, s.groups[g].kv + 1) := own];
      && (forall i :: 0 <= i < |evs| ==> CanHappen(KeysAfter(held, evs[..i]), loser, evs[i]) && Later(t, evs[i]))
      && d.deks == KeysAfter(held, evs)
    requires ch.group == g && ch.kv == s.groups[g].kv + 1 && !ch.deleted
    requires ch.ct.Sealed? && ch.ct.kv == ch.kv && ch.ct.dek != own
    ensures var t := UploadKeys(s, winner, g, s.groups[g].kv + 1, ups).0;
      UploadKeys(t, loser, g, s.groups[g].kv + 1, others) == (t, ERR_BAD_ENVELOPES)
    ensures Get(d.deks, Slot(g, s.groups[g].kv + 1)) == Some(own)
    ensures Unreadable(d, ch)
  {
    var t := UploadKeys(s, winner, g, s.groups[g].kv + 1, ups).0;
    RaceLoserRefused(s, winner, loser, g, ups, others);
    RekeyNamesEachMemberOnce(s, winner, g, ups);
    EventsKeepKey(t, deks[Slot(g, s.groups[g].kv + 1) := own], loser, evs, g);
  }
}
