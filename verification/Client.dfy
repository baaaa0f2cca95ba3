/**
  The client's local tables and, as functions on them, what the sync engine and the user do to them:
  apply a pulled change, flush waiting entries, handle push results, re-encrypt a group after a
  rekey, and edit, delete, restore or resolve an entry.  The vault is unlocked throughout.
 */
module Client {
  import opened Base
  import opened Json
  import opened Merge
  import opened Wire

  /** A local entry.  `cache` is the plaintext cache, `base` the snapshot taken before the first edit. */
  datatype Row = Row(group: Id, seqNo: int, kv: int, ct: Ciphertext, cache: Option<Json>, base: Option<Json>,
                     dirty: bool, deleted: bool, conflict: bool)

  /** A live change whose key has not arrived. */
  datatype Waiting = Waiting(group: Id, seqNo: int, kv: int, ct: Ciphertext)

  datatype Slot = Slot(group: Id, kv: int)

  /** What the last pull said about a group. */
  datatype GroupNote = GroupNote(kv: int, archived: bool)

  /** `nonce` stands for the random source: the next value nobody has used. */
  datatype Store = Store(
    rows: map<Id, Row>,
    waiting: map<Id, Waiting>,
    deks: map<Slot, Key>,
    bad: set<int>,
    recycle: map<Id, Ciphertext>,
    held: set<Id>,
    states: map<Id, GroupNote>,
    lastSeq: int,
    nonce: nat)

  const EMPTY_STORE := Store(map[], map[], map[], {}, map[], {}, map[], 0, 0)

  // ---- the vault ----

  predicate HasKey(c: Store, g: Id, kv: int) { Slot(g, kv) in c.deks }

  /** Opens only what was sealed for this entry and group, under the key held for the sealed version. */
  function Decrypt(deks: map<Slot, Key>, g: Id, id: Id, ct: Ciphertext): Option<Json> {
    if ct.Sealed? && ct.entry == id && ct.group == g && Slot(g, ct.kv) in deks && deks[Slot(g, ct.kv)] == ct.dek
    then Some(ct.text) else None
  }

  function Seal(c: Store, g: Id, id: Id, text: Json, kv: int): Ciphertext
    requires HasKey(c, g, kv)
  {
    Sealed(c.deks[Slot(g, kv)], id, g, kv, text, c.nonce)
  }

  /** A sealed text opens for its own entry and group under the key it was sealed with, and for nothing else. */
  lemma SealOpensOnlyItsOwn(c: Store, g: Id, id: Id, text: Json, kv: int, deks: map<Slot, Key>, g': Id, id': Id)
    requires HasKey(c, g, kv)
    ensures Decrypt(deks, g', id', Seal(c, g, id, text, kv)) ==
            if g' == g && id' == id && Get(deks, Slot(g, kv)) == Get(c.deks, Slot(g, kv)) then Some(text) else None
  {
  }

  function SetDEK(c: Store, g: Id, kv: int, key: Key): Store {
    c.(deks := c.deks[Slot(g, kv) := key])
  }

  // ---- table operations ----

  function PutRow(c: Store, id: Id, row: Row): Store { c.(rows := c.rows[id := row]) }

  /** Writes a row holding a freshly sealed text. */
  function PutSealed(c: Store, id: Id, row: Row): Store {
    c.(rows := c.rows[id := row], nonce := c.nonce + 1)
  }

  function NotWaiting(c: Store, id: Id): Store { c.(waiting := c.waiting - {id}) }

  // ---- incoming changes ----

  /** The merged document, if the cached text, the snapshot and the server's text merge without conflict. */
  function AutoMerge(row: Row, theirs: Json): Option<Json> {
    if row.cache.None? then None
    else
      var r := MergeJSON(row.base, row.cache, Some(theirs), []);
      if r.Failed? || r.HasConflict() then None else Some(r.doc)
  }

  /** A conflict row at or past this version already stands for it. */
  predicate Replayed(c: Store, ch: Change) {
    ch.entry in c.rows && c.rows[ch.entry].conflict && ch.seqNo <= c.rows[ch.entry].seqNo
  }

  function ApplyTombstone(c: Store, ch: Change): Store {
    var id := ch.entry;
    if Replayed(c, ch) then c
    else if id in c.rows && c.rows[id].dirty then
      NotWaiting(PutRow(c, id, c.rows[id].(conflict := true, dirty := false, seqNo := ch.seqNo, ct := ch.ct)), id)
    else
      var kept := if id in c.rows then c.(recycle := c.recycle[id := c.rows[id].ct]) else c;
      NotWaiting(kept.(rows := kept.rows - {id}), id)
  }

  /** A live change meets an unpushed edit: with `merged` or, if that is `None`, as a conflict. */
  function ApplyOverEdit(c: Store, ch: Change, row: Row, merged: Option<Json>): Store
    requires HasKey(c, ch.group, ch.kv)
  {
    if merged.Some? then
      NotWaiting(PutSealed(c, ch.entry, Row(ch.group, ch.seqNo, ch.kv,
                                            Seal(c, ch.group, ch.entry, merged.value, ch.kv),
                                            merged, row.base, true, false, false)), ch.entry)
    else
      NotWaiting(PutRow(c, ch.entry, Row(ch.group, ch.seqNo, ch.kv, ch.ct, row.cache, row.base,
                                         false, false, true)), ch.entry).(bad := c.bad - {ch.seqNo})
  }

  function ApplyReadable(c: Store, ch: Change, text: Json): Store
    requires HasKey(c, ch.group, ch.kv)
  {
    var id := ch.entry;
    if Replayed(c, ch) then c
    else if id in c.rows && c.rows[id].deleted then PutRow(c, id, c.rows[id].(dirty := true))
    else if id in c.rows && c.rows[id].dirty then ApplyOverEdit(c, ch, c.rows[id], AutoMerge(c.rows[id], text))
    else
      NotWaiting(PutRow(c, id, Row(ch.group, ch.seqNo, ch.kv, ch.ct, Some(text), None, false, false, false)), id)
        .(bad := c.bad - {ch.seqNo})
  }

  function ApplyUnreadable(c: Store, ch: Change): Store {
    PutRow(c, ch.entry, Row(ch.group, ch.seqNo, ch.kv, ch.ct, None, None, false, false, false))
      .(bad := c.bad + {ch.seqNo})
  }

  function ApplyChange(c: Store, ch: Change): Store {
    if ch.deleted then ApplyTombstone(c, ch)
    else if !HasKey(c, ch.group, ch.kv) then
      c.(waiting := c.waiting[ch.entry := Waiting(ch.group, ch.seqNo, ch.kv, ch.ct)])
    else
      var text := Decrypt(c.deks, ch.group, ch.entry, ch.ct);
      if text.None? then ApplyUnreadable(c, ch) else ApplyReadable(c, ch, text.value)
  }

  function ApplyChanges(c: Store, chs: seq<Change>): Store {
    if chs == [] then c else ApplyChange(ApplyChanges(c, chs[..|chs| - 1]), chs[|chs| - 1])
  }

  function AsLive(id: Id, w: Waiting): Change { Change(id, w.group, w.seqNo, w.kv, w.ct, false) }

  /** The waiting entries whose key has come are applied; `ids` is the order in which they were read. */
  function Flush(c: Store, listed: map<Id, Waiting>, ids: seq<Id>): Store
    requires forall id :: id in ids ==> id in listed
  {
    if ids == [] then c
    else
      var id := ids[|ids| - 1];
      var before := Flush(c, listed, ids[..|ids| - 1]);
      if HasKey(before, listed[id].group, listed[id].kv) then ApplyChange(before, AsLive(id, listed[id])) else before
  }

  // ---- outgoing changes ----

  function AsMutation(id: Id, row: Row): Mutation {
    Mutation(id, row.group, row.seqNo, row.kv, row.ct, row.deleted)
  }

  /** The dirty rows of groups that are not held, in the order in which they were read. */
  function Outgoing(c: Store, ids: seq<Id>): seq<Mutation>
    requires forall id :: id in ids ==> id in c.rows
  {
    if ids == [] then []
    else
      var id := ids[|ids| - 1];
      var rest := Outgoing(c, ids[..|ids| - 1]);
      if c.rows[id].dirty && c.rows[id].group !in c.held then rest + [AsMutation(id, c.rows[id])] else rest
  }

  function HandleAccepted(c: Store, id: Id, newSeq: int): Store {
    if id !in c.rows then c
    else if c.rows[id].deleted then c.(rows := c.rows - {id})
    else PutRow(c, id, c.rows[id].(dirty := false, base := None, seqNo := newSeq))
  }

  function FlagConflict(c: Store, id: Id): Store {
    if id in c.rows then PutRow(c, id, c.rows[id].(conflict := true)) else c
  }

  function HandlePushConflict(c: Store, id: Id, current: Change): Store {
    if id !in c.rows then c
    else
      var row := c.rows[id];
      if row.deleted then
        PutRow(c, id, Row(current.group, current.seqNo, current.kv, EMPTY, None, None, true, true, false))
      else
        var theirs := Decrypt(c.deks, current.group, id, current.ct);
        ConflictOverEdit(c, id, current, if theirs.Some? then AutoMerge(row, theirs.value) else None)
  }

  function ConflictOverEdit(c: Store, id: Id, current: Change, merged: Option<Json>): Store
    requires id in c.rows
  {
    var row := c.rows[id];
    if merged.Some? && HasKey(c, current.group, current.kv) then
      PutSealed(c, id, Row(current.group, current.seqNo, current.kv,
                           Seal(c, current.group, id, merged.value, current.kv),
                           merged, row.base, true, false, false))
    else
      PutRow(c, id, Row(current.group, current.seqNo, current.kv, current.ct, row.cache, row.base, false, false, true))
  }

  function HandleResult(c: Store, m: Mutation, r: PushResult): Store {
    match r
    case Accepted(id, newSeq) => HandleAccepted(c, id, newSeq)
    case Refused(id, code, current) =>
      if code == ERR_CONFLICT then
        if current.Some? then HandlePushConflict(c, id, current.value) else FlagConflict(c, id)
      else if code == ERR_KEY_VERSION_STALE then c.(held := c.held + {m.group})
      else c
  }

  function HandleResults(c: Store, ms: seq<Mutation>, rs: seq<PushResult>): Store
    requires |ms| == |rs|
  {
    if ms == [] then c
    else HandleResult(HandleResults(c, ms[..|ms| - 1], rs[..|rs| - 1]), ms[|ms| - 1], rs[|rs| - 1])
  }

  // ---- re-encryption ----

  function ReencryptRow(c: Store, g: Id, newKV: int, id: Id): Store
    requires HasKey(c, g, newKV)
  {
    if id !in c.rows || c.rows[id].group != g || c.rows[id].kv == newKV then c
    else
      var row := c.rows[id];
      var text := Decrypt(c.deks, g, id, row.ct);
      if text.None? then c
      else PutSealed(c, id, row.(ct := Seal(c, g, id, text.value, newKV), kv := newKV, dirty := true, cache := text))
  }

  /** All listed rows, one after the other.  Without the new key the first sealing fails and nothing changes. */
  function Reencrypt(c: Store, g: Id, newKV: int, ids: seq<Id>): (r: Store)
    ensures r.rows.Keys == c.rows.Keys && r.deks == c.deks
  {
    if ids == [] || !HasKey(c, g, newKV) then c
    else ReencryptRow(Reencrypt(c, g, newKV, ids[..|ids| - 1]), g, newKV, ids[|ids| - 1])
  }

  // ---- the user's edits ----

  function PutEntry(c: Store, g: Id, id: Id, text: Json): Store {
    var kv := if g in c.states && c.states[g].kv > 0 then c.states[g].kv else 1;
    if !HasKey(c, g, kv) then c
    else
      var seqNo := if id in c.rows then c.rows[id].seqNo else 0;
      var base :=
        if id !in c.rows then None
        else if c.rows[id].base.Some? then c.rows[id].base
        else if !c.rows[id].conflict then c.rows[id].cache
        else None;
      PutSealed(c, id, Row(g, seqNo, kv, Seal(c, g, id, text, kv), Some(text), base, true, false, false))
  }

  function DeleteEntry(c: Store, id: Id): Store {
    if id !in c.rows then c
    else
      var row := c.rows[id];
      PutRow(c.(recycle := c.recycle[id := row.ct]), id,
             Row(row.group, row.seqNo, row.kv, EMPTY, None, None, true, true, false))
  }

  /** The recycled text of a local tombstone, if there is one and it opens. */
  function Restorable(c: Store, id: Id): Option<Json> {
    if id !in c.recycle || id !in c.rows || c.rows[id].group == "" || !c.rows[id].deleted then None
    else Decrypt(c.deks, c.rows[id].group, id, c.recycle[id])
  }

  function RestoreEntry(c: Store, id: Id): Store {
    var text := Restorable(c, id);
    if text.None? then c
    else
      var row := c.rows[id];
      PutRow(c, id, Row(row.group, row.seqNo, row.kv, c.recycle[id], text, None, true, false, false))
        .(recycle := c.recycle - {id})
  }

  datatype Choice = TakeOurs | TakeTheirs | Manual(text: Json)

  function Chosen(c: Store, id: Id, choice: Choice): Option<Json>
    requires id in c.rows
  {
    match choice
    case Manual(text) => Some(text)
    case TakeOurs => c.rows[id].cache
    case TakeTheirs => Decrypt(c.deks, c.rows[id].group, id, c.rows[id].ct)
  }

  function ResolveConflict(c: Store, id: Id, choice: Choice): Store {
    if id !in c.rows || !c.rows[id].conflict then c
    else
      var row, text := c.rows[id], Chosen(c, id, choice);
      if text.None? || !HasKey(c, row.group, row.kv) then c
      else PutSealed(c, id, Row(row.group, row.seqNo, row.kv, Seal(c, row.group, id, text.value, row.kv),
                                text, None, true, false, false))
  }
}
