/**
  The server's tables and, as functions on them, every operation that changes them: push one
  mutation, upload keys, the admin steps and the tombstone cleaner.  Two history fields that no
  operation reads record the past: `log`, the accepted writes in order, and `granted`, every envelope
  key that was ever inserted.
 */
module Server {
  import opened Base
  import opened Wire

  const MAX_CIPHERTEXT := 256 * 1024

  datatype Entry = Entry(group: Id, seqNo: int, kv: int, ct: Ciphertext, deleted: bool, at: int)

  datatype Group = Group(name: string, kv: int, pending: bool, archived: bool)

  datatype User = User(username: string, name: string, pub: string, active: bool, admin: bool)

  datatype Member = Member(group: Id, user: Id)

  datatype EnvKey = EnvKey(group: Id, kv: int, user: Id)

  /** One accepted write: the mutation that asked for it and the row it stored. */
  datatype Commit = Commit(m: Mutation, row: Entry)

  type Envelopes = map<EnvKey, Wrapped>

  datatype State = State(
    seqNo: nat,
    entries: map<Id, Entry>,
    groups: map<Id, Group>,
    members: set<Member>,
    users: map<Id, User>,
    envs: Envelopes,
    log: seq<Commit>,
    granted: set<EnvKey>)

  const EMPTY_STATE := State(0, map[], map[], {}, map[], map[], [], {})

  function AsChange(id: Id, e: Entry): Change {
    Change(id, e.group, e.seqNo, e.kv, e.ct, e.deleted)
  }

  // ---- queries ----

  function Active(s: State, g: Id): set<Id> {
    set u | u in s.users && s.users[u].active && Member(g, u) in s.members
  }

  function UserGroups(s: State, u: Id): set<Id> {
    set g | g in s.groups && Member(g, u) in s.members
  }

  /** Live entries of the group still below the key version. */
  function Below(entries: map<Id, Entry>, g: Id, kv: int): set<Id> {
    set id | id in entries && entries[id].group == g && !entries[id].deleted && entries[id].kv < kv
  }

  /** Active members without an envelope at the current key version; none for an archived group. */
  function Missing(s: State, g: Id): set<Id>
    requires g in s.groups
  {
    if s.groups[g].archived then {}
    else set u | u in Active(s, g) && EnvKey(g, s.groups[g].kv, u) !in s.envs
  }

  // ---- table updates ----

  function SetPending(groups: map<Id, Group>, g: Id, pending: bool): map<Id, Group> {
    if g in groups then groups[g := groups[g].(pending := pending)] else groups
  }

  function DropOldKV(envs: Envelopes, g: Id, kv: int): Envelopes {
    map k | k in envs && !(k.group == g && k.kv < kv) :: envs[k]
  }

  function DropKV(envs: Envelopes, g: Id, kv: int): Envelopes {
    map k | k in envs && !(k.group == g && k.kv == kv) :: envs[k]
  }

  function DropUser(envs: Envelopes, u: Id): Envelopes {
    map k | k in envs && k.user != u :: envs[k]
  }

  function DropGroupUser(envs: Envelopes, g: Id, u: Id): Envelopes {
    map k | k in envs && !(k.group == g && k.user == u) :: envs[k]
  }

  // ---- push ----

  /** The row the upsert stores: a new sequence number, but an existing row keeps its group. */
  function StoredRow(s: State, m: Mutation, now: int): Entry {
    Entry(if m.entry in s.entries then s.entries[m.entry].group else m.group,
          s.seqNo + 1, m.kv, m.ct, m.deleted, now)
  }

  function Upsert(s: State, m: Mutation, now: int): State {
    var row := StoredRow(s, m, now);
    s.(seqNo := s.seqNo + 1, entries := s.entries[m.entry := row], log := s.log + [Commit(m, row)])
  }

  function FinishRekey(s: State, g: Id, kv: int): State {
    if Below(s.entries, g, kv) != {} then s
    else s.(groups := SetPending(s.groups, g, false), envs := DropOldKV(s.envs, g, kv))
  }

  /** The checks before the write, in the source's order; `None` lets the mutation through. */
  function Refusal(s: State, user: Id, m: Mutation): Option<PushResult> {
    if Member(m.group, user) !in s.members then Some(Refused(m.entry, ERR_NOT_MEMBER, None))
    else if m.group !in s.groups then Some(Refused(m.entry, ERR_NOT_MEMBER, None))
    else if s.groups[m.group].archived then Some(Refused(m.entry, ERR_GROUP_ARCHIVED, None))
    else if WireSize(m.ct) > MAX_CIPHERTEXT then Some(Refused(m.entry, ERR_TOO_LARGE, None))
    else if m.kv != s.groups[m.group].kv then Some(Refused(m.entry, ERR_KEY_VERSION_STALE, None))
    else if m.entry in s.entries then
      if m.base != s.entries[m.entry].seqNo
      then Some(Refused(m.entry, ERR_CONFLICT, Some(AsChange(m.entry, s.entries[m.entry])))) else None
    else if m.base != 0 then Some(Refused(m.entry, ERR_ENTRY_STATE, None))
    else None
  }

  predicate Accepts(s: State, user: Id, m: Mutation) { Refusal(s, user, m).None? }

  function PushOne(s: State, user: Id, m: Mutation, now: int): (State, PushResult) {
    match Refusal(s, user, m)
    case Some(r) => (s, r)
    case None => (FinishRekey(Upsert(s, m, now), m.group, m.kv), Accepted(m.entry, s.seqNo + 1))
  }

  function PushAll(s: State, user: Id, ms: seq<Mutation>, now: int): (State, seq<PushResult>) {
    if ms == [] then (s, [])
    else
      var (before, results) := PushAll(s, user, ms[..|ms| - 1], now);
      var (after, r) := PushOne(before, user, ms[|ms| - 1], now);
      (after, results + [r])
  }

  // ---- keys ----

  function UploadUsers(ups: seq<Upload>): set<Id> {
    set i | 0 <= i < |ups| :: ups[i].user
  }

  predicate DistinctUsers(ups: seq<Upload>) {
    forall i, j :: 0 <= i < j < |ups| ==> ups[i].user != ups[j].user
  }

  function InsertEnvs(envs: Envelopes, g: Id, kv: int, ups: seq<Upload>): Envelopes {
    if ups == [] then envs
    else
      var last := ups[|ups| - 1];
      InsertEnvs(envs, g, kv, ups[..|ups| - 1])[EnvKey(g, kv, last.user) := last.wrapped]
  }

  function EnvKeys(g: Id, kv: int, ups: seq<Upload>): set<EnvKey> {
    set i | 0 <= i < |ups| :: EnvKey(g, kv, ups[i].user)
  }

  /** Appending never overwrites: neither an existing envelope nor one of the same upload. */
  function AppendEnvelopes(s: State, g: Id, kv: int, ups: seq<Upload>): (State, int) {
    if (exists i :: 0 <= i < |ups| && EnvKey(g, kv, ups[i].user) in s.envs) || !DistinctUsers(ups)
    then (s, ERR_BAD_ENVELOPES)
    else (s.(envs := InsertEnvs(s.envs, g, kv, ups), granted := s.granted + EnvKeys(g, kv, ups)), 0)
  }

  /** A rekey replaces the envelopes of the new version and raises the group to it. */
  function CommitRekey(s: State, g: Id, kv: int, ups: seq<Upload>): (State, int)
    requires g in s.groups
  {
    if !DistinctUsers(ups) then (s, ERR_INTERNAL)
    else
      var envs := InsertEnvs(DropKV(s.envs, g, kv), g, kv, ups);
      var raised := s.(envs := envs, groups := s.groups[g := s.groups[g].(kv := kv)],
                       granted := s.granted + EnvKeys(g, kv, ups));
      (FinishRekey(raised, g, kv), 0)
  }

  /** 0 is success. */
  function UploadKeys(s: State, user: Id, g: Id, kv: int, ups: seq<Upload>): (State, int) {
    if Member(g, user) !in s.members then (s, ERR_NOT_MEMBER)
    else if g !in s.groups then (s, ERR_NOT_MEMBER)
    else if s.groups[g].archived then (s, ERR_GROUP_ARCHIVED)
    else if !(UploadUsers(ups) <= Active(s, g)) then (s, ERR_BAD_ENVELOPES)
    else if kv == s.groups[g].kv then AppendEnvelopes(s, g, kv, ups)
    else if kv == s.groups[g].kv + 1 then
      if |ups| != |Active(s, g)| || !(Active(s, g) <= UploadUsers(ups)) then (s, ERR_BAD_ENVELOPES)
      else CommitRekey(s, g, kv, ups)
    else (s, ERR_BAD_ENVELOPES)
  }

  predicate IsRekey(s: State, user: Id, g: Id, kv: int, ups: seq<Upload>) {
    g in s.groups && kv == s.groups[g].kv + 1 && UploadKeys(s, user, g, kv, ups).1 == 0
  }

  // ---- admin ----

  function MarkPending(groups: map<Id, Group>, gs: set<Id>): map<Id, Group> {
    map g | g in groups :: if g in gs then groups[g].(pending := true) else groups[g]
  }

  predicate Taken(s: State, username: string, pub: string) {
    exists u :: u in s.users && (s.users[u].username == username || s.users[u].pub == pub)
  }

  /** `attested`: the credential fits name and key.  An administrator enters by the bootstrap route. */
  function CreateUser(s: State, uid: Id, username: string, name: string, pub: string, attested: bool, admin: bool): State {
    if username == "" || name == "" || pub == "" || !attested || Taken(s, username, pub) || uid in s.users then s
    else s.(users := s.users[uid := User(username, name, pub, true, admin)])
  }

  function Revoke(s: State, uid: Id, confirm: string): State {
    if uid !in s.users || confirm != s.users[uid].name then s
    else s.(users := s.users[uid := s.users[uid].(active := false)],
            envs := DropUser(s.envs, uid),
            groups := MarkPending(s.groups, UserGroups(s, uid)),
            members := set m | m in s.members && !(m.group in UserGroups(s, uid) && m.user == uid))
  }

  function KeyfileReset(s: State, uid: Id, pub: string, attested: bool): State {
    if uid !in s.users || !s.users[uid].active || !attested then s
    else s.(users := s.users[uid := s.users[uid].(pub := pub)], envs := DropUser(s.envs, uid),
            groups := MarkPending(s.groups, UserGroups(s, uid)))
  }

  function CreateGroup(s: State, g: Id, name: string, caller: Id): State {
    if name == "" || g in s.groups then s
    else
      var joins := caller in s.users && s.users[caller].active && s.users[caller].admin;
      s.(groups := s.groups[g := Group(name, 1, false, false)],
         members := if joins then s.members + {Member(g, caller)} else s.members)
  }

  function AddMember(s: State, g: Id, u: Id): State {
    if Member(g, u) in s.members || u !in s.users || !s.users[u].active || g !in s.groups then s
    else s.(members := s.members + {Member(g, u)})
  }

  function RemoveMember(s: State, g: Id, u: Id, confirm: string): State {
    if u !in s.users || confirm != s.users[u].name then s
    else s.(members := s.members - {Member(g, u)}, envs := DropGroupUser(s.envs, g, u),
            groups := SetPending(s.groups, g, true))
  }

  function TriggerRekey(s: State, g: Id): State {
    s.(groups := SetPending(s.groups, g, true))
  }

  function Archive(s: State, g: Id, confirm: string): State {
    if g !in s.groups || confirm != s.groups[g].name then s
    else s.(groups := s.groups[g := s.groups[g].(archived := true)])
  }

  function Unarchive(s: State, g: Id): State {
    if g !in s.groups then s else s.(groups := s.groups[g := s.groups[g].(archived := false)])
  }

  function CleanTombstones(s: State, before: int): State {
    s.(entries := map id | id in s.entries && !(s.entries[id].deleted && s.entries[id].at < before) :: s.entries[id])
  }

  // ---- runs ----

  datatype Step =
    | Push(user: Id, m: Mutation, now: int)
    | Upload(user: Id, g: Id, kv: int, ups: seq<Wire.Upload>)
    | DoCreateUser(uid: Id, username: string, name: string, pub: string, attested: bool, admin: bool)
    | DoRevoke(uid: Id, confirm: string)
    | DoKeyfileReset(uid: Id, pub: string, attested: bool)
    | DoCreateGroup(g: Id, name: string, caller: Id)
    | DoAddMember(g: Id, uid: Id)
    | DoRemoveMember(g: Id, uid: Id, confirm: string)
    | DoTriggerRekey(g: Id)
    | DoArchive(g: Id, confirm: string)
    | DoUnarchive(g: Id)
    | DoClean(before: int)

  function Apply(s: State, step: Step): State {
    match step
    case Push(user, m, now) => PushOne(s, user, m, now).0
    case Upload(user, g, kv, ups) => UploadKeys(s, user, g, kv, ups).0
    case DoCreateUser(uid, username, name, pub, attested, admin) =>
      CreateUser(s, uid, username, name, pub, attested, admin)
    case DoRevoke(uid, confirm) => Revoke(s, uid, confirm)
    case DoKeyfileReset(uid, pub, attested) => KeyfileReset(s, uid, pub, attested)
    case DoCreateGroup(g, name, caller) => CreateGroup(s, g, name, caller)
    case DoAddMember(g, uid) => AddMember(s, g, uid)
    case DoRemoveMember(g, uid, confirm) => RemoveMember(s, g, uid, confirm)
    case DoTriggerRekey(g) => TriggerRekey(s, g)
    case DoArchive(g, confirm) => Archive(s, g, confirm)
    case DoUnarchive(g) => Unarchive(s, g)
    case DoClean(before) => CleanTombstones(s, before)
  }

  function Run(s: State, steps: seq<Step>): State {
    if steps == [] then s else Apply(Run(s, steps[..|steps| - 1]), steps[|steps| - 1])
  }
}
