/**
  The vault's cache of data keys: one memory slot per group over the encrypted key table.  The slots
  are byte arrays that are copied in, copied out and zeroed, so sharing matters.
 */
module DekCache {
  import opened Base
  import Client

  /** The bytes of a key-encryption key. */
  type Kek = seq<byte>

  type Slot = Client.Slot

  /** A row of the key table; it opens only under the key that sealed it. */
  datatype Blob = Blob(kek: Kek, plain: seq<byte>)

  datatype Cached = Cached(kv: int, dek: array<byte>)

  // ---- the specification: a table of keys, no slots ----

  datatype State = State(kek: Option<Kek>, table: map<Slot, Blob>)

  const LOCKED := State(None, map[])

  function Lookup(s: State, g: Id, kv: int): Option<seq<byte>> {
    if s.kek.Some? && Client.Slot(g, kv) in s.table && s.table[Client.Slot(g, kv)].kek == s.kek.value
    then Some(s.table[Client.Slot(g, kv)].plain) else None
  }

  function StoreKey(s: State, g: Id, kv: int, key: seq<byte>): State {
    if s.kek.None? then s else s.(table := s.table[Client.Slot(g, kv) := Blob(s.kek.value, key)])
  }

  lemma StoredLookup(s: State, g: Id, kv: int, key: seq<byte>, h: Id, v: int)
    requires s.kek.Some?
    ensures Lookup(StoreKey(s, g, kv, key), h, v) == if h == g && v == kv then Some(key) else Lookup(s, h, v)
  {
  }

  function Forget(s: State, g: Id): State {
    s.(table := map k | k in s.table && k.group != g :: s.table[k])
  }

  /** The encoded private key, what parsing makes of it, and the cache key derived beside it. */
  datatype PrivateKey = PrivateKey(der: seq<byte>, scalar: Option<seq<byte>>, cacheKey: seq<byte>)

  /** `readable`: the device state could be read after the keys were put in place. */
  datatype Op =
    | Insert(g: Id, kv: int, key: seq<byte>)
    | Unwrap(g: Id, kv: int, clear: Option<seq<byte>>)
    | Read(g: Id, kv: int)
    | Invalidate(g: Id)
    | LockUp
    | OpenWith(kek: Kek, private: PrivateKey, readable: bool)

  function Do(s: State, op: Op): State {
    match op
    case Insert(g, kv, key) => StoreKey(s, g, kv, key)
    case Unwrap(g, kv, clear) => if clear.Some? then StoreKey(s, g, kv, clear.value) else s
    case Read(_, _) => s
    case Invalidate(g) => Forget(s, g)
    case LockUp => s.(kek := None)
    case OpenWith(kek, private, readable) =>
      if private.scalar.None? then s else s.(kek := if readable then Some(kek) else None)
  }

  function DoAll(ops: seq<Op>): State {
    if ops == [] then LOCKED else Do(DoAll(ops[..|ops| - 1]), ops[|ops| - 1])
  }

  /** The key most recently stored for (g, kv) while the vault was open and not invalidated since. */
  function LastStored(ops: seq<Op>, g: Id, kv: int): Option<seq<byte>> {
    if ops == [] then None
    else
      var init, op := ops[..|ops| - 1], ops[|ops| - 1];
      if op == Invalidate(g) then None
      else if DoAll(init).kek.Some? && op.Insert? && op.g == g && op.kv == kv then Some(op.key)
      else if DoAll(init).kek.Some? && op.Unwrap? && op.g == g && op.kv == kv && op.clear.Some? then op.clear
      else LastStored(init, g, kv)
  }

  predicate OneKek(ops: seq<Op>, kek: Kek) {
    forall i :: 0 <= i < |ops| && ops[i].OpenWith? ==> ops[i].kek == kek
  }

  /** The KEK under which that key was stored. */
  function StoredUnder(ops: seq<Op>, g: Id, kv: int): Option<Kek> {
    if ops == [] then None
    else
      var init, op := ops[..|ops| - 1], ops[|ops| - 1];
      if op == Invalidate(g) then None
      else if DoAll(init).kek.Some? && op.Insert? && op.g == g && op.kv == kv then DoAll(init).kek
      else if DoAll(init).kek.Some? && op.Unwrap? && op.g == g && op.kv == kv && op.clear.Some? then DoAll(init).kek
      else StoredUnder(init, g, kv)
  }

  /** What a read should answer after these calls. */
  function KeyToRead(ops: seq<Op>, g: Id, kv: int): Option<seq<byte>> {
    if DoAll(ops).kek.Some? && DoAll(ops).kek == StoredUnder(ops, g, kv) then LastStored(ops, g, kv) else None
  }

  lemma {:induction false} TableHoldsLast(ops: seq<Op>, g: Id, kv: int)
    ensures StoredUnder(ops, g, kv).Some? == LastStored(ops, g, kv).Some?
    ensures Get(DoAll(ops).table, Client.Slot(g, kv)) ==
            if LastStored(ops, g, kv).None? then None
            else Some(Blob(StoredUnder(ops, g, kv).value, LastStored(ops, g, kv).value))
  {
    if ops != [] { TableHoldsLast(ops[..|ops| - 1], g, kv); }
  }

  /** A key is read exactly under the KEK it was stored under; under another it is as if it had never come. */
  lemma ReadsUnderItsKek(ops: seq<Op>, g: Id, kv: int)
    ensures Lookup(DoAll(ops), g, kv) == KeyToRead(ops, g, kv)
  {
    TableHoldsLast(ops, g, kv);
  }

  lemma {:induction false} OneKekThroughout(ops: seq<Op>, kek: Kek, g: Id, kv: int)
    requires OneKek(ops, kek)
    ensures DoAll(ops).kek.Some? ==> DoAll(ops).kek == Some(kek)
    ensures StoredUnder(ops, g, kv).Some? ==> StoredUnder(ops, g, kv) == Some(kek)
  {
    if ops != [] {
      var init := ops[..|ops| - 1];
      forall i | 0 <= i < |init| && init[i].OpenWith? ensures init[i].kek == kek { assert init[i] == ops[i]; }
      OneKekThroughout(init, kek, g, kv);
    }
  }

  /** Locking and unlocking with the same key in between loses nothing and brings nothing back. */
  lemma ReadsLastStored(ops: seq<Op>, kek: Kek, g: Id, kv: int)
    requires OneKek(ops, kek)
    ensures DoAll(ops).kek.Some? ==> DoAll(ops).kek == Some(kek) && Lookup(DoAll(ops), g, kv) == LastStored(ops, g, kv)
    ensures Get(DoAll(ops).table, Client.Slot(g, kv)) ==
            if LastStored(ops, g, kv).Some? then Some(Blob(kek, LastStored(ops, g, kv).value)) else None
  {
    TableHoldsLast(ops, g, kv);
    OneKekThroughout(ops, kek, g, kv);
  }

  // ---- the vault ----

  method Wipe(b: array<byte>)
    modifies b
    ensures Zeroed(b)
  {
    var i := 0;
    while i < b.Length
      invariant 0 <= i <= b.Length
      invariant forall j :: 0 <= j < i ==> b[j] == 0
    {
      b[i] := 0;
      i := i + 1;
    }
  }

  ghost predicate Zeroed(b: array<byte>)
    reads b
  {
    forall i :: 0 <= i < b.Length ==> b[i] == 0
  }

  method Copy(b: array<byte>) returns (c: array<byte>)
    ensures fresh(c) && c[..] == b[..]
  {
    c := new byte[b.Length];
    var i := 0;
    while i < b.Length
      invariant 0 <= i <= b.Length
      invariant forall j :: 0 <= j < i ==> c[j] == b[j]
    {
      c[i] := b[i];
      i := i + 1;
    }
  }

  method FromSeq(s: seq<byte>) returns (c: array<byte>)
    ensures fresh(c) && c[..] == s
  {
    c := new byte[|s|](i requires 0 <= i < |s| => s[i]);
  }

  class Vault {
    var kek: Option<Kek>
    var secrets: seq<array<byte>>
    var deks: map<Id, Cached>
    var table: map<Slot, Blob>

    ghost function View(): State
      reads this
    {
      State(kek, table)
    }

    ghost function Arrays(): set<array<byte>>
      reads this
    {
      set g | g in deks :: deks[g].dek
    }

    /** While open: the key-encryption key, the encoded private key, its scalar and the cache key. */
    ghost predicate KeysInPlace()
      reads this, secrets
    {
      && |secrets| == (if kek.Some? then 4 else 0)
      && (kek.Some? ==> secrets[0][..] == kek.value)
    }

    /** No two groups share an array, nor a group and the vault's own keys. */
    ghost predicate Apart()
      reads this
    {
      && (forall g, h :: g in deks && h in deks && g != h ==> deks[g].dek != deks[h].dek)
      && (forall b :: b in secrets ==> b !in Arrays())
    }

    /** While open, a slot holds what the table holds for its version. */
    ghost predicate Valid()
      reads this, Arrays(), secrets
    {
      && KeysInPlace() && Apart()
      && (kek.Some? ==> forall g :: g in deks ==> Lookup(View(), g, deks[g].kv) == Some(deks[g].dek[..]))
    }

    constructor ()
      ensures Valid() && View() == LOCKED && Arrays() == {} && secrets == []
    {
      kek, secrets, deks, table := None, [], map[], map[];
    }

    method WipeSlot(g: Id)
      requires Valid()
      modifies Arrays()
      ensures KeysInPlace() && (g in deks ==> Zeroed(deks[g].dek))
      ensures forall h :: h in deks && h != g ==> deks[h].dek[..] == old(deks[h].dek[..])
    {
      if g in deks {
        assert deks[g].dek in Arrays();
        Wipe(deks[g].dek);
      }
    }

    method ReplaceSlot(g: Id, kv: int, cp: array<byte>)
      requires Valid() && cp !in Arrays() && cp !in secrets
      modifies `deks, Arrays()
      ensures deks == old(deks)[g := Cached(kv, cp)] && Arrays() <= old(Arrays()) + {cp}
      ensures KeysInPlace() && Apart() && cp[..] == old(cp[..])
      ensures g in old(deks) ==> Zeroed(old(deks[g].dek))
      ensures forall h :: h in deks && h != g ==> deks[h].dek[..] == old(deks[h].dek[..])
    {
      WipeSlot(g);
      deks := deks[g := Cached(kv, cp)];
    }

    /** The slot takes a copy, and the array it replaces is zeroed; a locked vault stores nothing in the table. */
    method SetDEK(g: Id, kv: int, dek: array<byte>) returns (ok: bool)
      requires Valid()
      modifies this, Arrays()
      ensures Valid() && View() == StoreKey(old(View()), g, kv, old(dek[..])) && ok == kek.Some?
      ensures g in old(deks) ==> Zeroed(old(deks[g].dek))
      ensures fresh(Arrays() - old(Arrays())) && dek !in Arrays() - old(Arrays()) && secrets == old(secrets)
    {
      var cp := Copy(dek);
      ReplaceSlot(g, kv, cp);
      if kek.None? { return false; }
      table := table[Client.Slot(g, kv) := Blob(kek.value, cp[..])];
      forall h | h in deks ensures Lookup(View(), h, deks[h].kv) == Some(deks[h].dek[..]) {
        StoredLookup(old(View()), g, kv, cp[..], h, deks[h].kv);
      }
      return true;
    }

    /** Slot first, then the table, which refills the slot.  The caller gets an array of its own. */
    method GetDEK(g: Id, kv: int) returns (dek: Option<array<byte>>)
      requires Valid()
      modifies this, Arrays()
      ensures Valid() && View() == old(View()) && fresh(Arrays() - old(Arrays())) && secrets == old(secrets)
      ensures dek.Some? ==> fresh(dek.value) && dek.value !in Arrays()
      ensures kek.Some? ==> (if dek.Some? then Some(dek.value[..]) else None) == Lookup(View(), g, kv)
      ensures kek.None? ==> (dek.Some? <==> g in old(deks) && old(deks[g].kv) == kv)
    {
      if g in deks && deks[g].kv == kv {
        var copy := Copy(deks[g].dek);
        return Some(copy);
      }
      if Client.Slot(g, kv) !in table { return None; }
      var blob := table[Client.Slot(g, kv)];
      if kek.None? || blob.kek != kek.value { return None; }
      var plain := FromSeq(blob.plain);
      var ok := SetDEK(g, kv, plain);
      return Some(plain);
    }

    /** `clear` is what the private key makes of the envelope. */
    method UnwrapDEK(g: Id, kv: int, clear: Option<seq<byte>>) returns (dek: Option<array<byte>>)
      requires Valid()
      modifies this, Arrays()
      ensures Valid() && View() == Do(old(View()), Unwrap(g, kv, clear))
      ensures fresh(Arrays() - old(Arrays())) && secrets == old(secrets)
      ensures dek.Some? <==> kek.Some? && clear.Some?
      ensures dek.Some? ==> fresh(dek.value) && dek.value !in Arrays() && dek.value[..] == clear.value
    {
      if kek.None? || clear.None? { return None; }
      var plain := FromSeq(clear.value);
      var ok := SetDEK(g, kv, plain);
      return Some(plain);
    }

    method HasAnyDEK(g: Id) returns (any: bool)
      requires Valid()
      ensures any <==> g in deks || exists kv :: Client.Slot(g, kv) in table
      ensures kek.Some? ==> (any <==> exists kv :: Client.Slot(g, kv) in table)
    {
      if g in deks { return true; }
      var listed := set s | s in table :: s.group;
      any := g in listed;
      forall kv | Client.Slot(g, kv) in table ensures any {
        assert Client.Slot(g, kv).group in listed;
      }
      if any {
        ghost var s :| s in table && s.group == g;
        assert Client.Slot(g, s.kv) in table;
      }
    }

    method InvalidateGroupDEKs(g: Id)
      requires Valid()
      modifies this, Arrays()
      ensures Valid() && View() == Forget(old(View()), g) && Arrays() <= old(Arrays()) && g !in deks
      ensures secrets == old(secrets)
      ensures g in old(deks) ==> Zeroed(old(deks[g].dek))
    {
      WipeSlot(g);
      deks := deks - {g};
      table := map k | k in table && k.group != g :: table[k];
    }

    /** The keys and every slot are zeroed before they are dropped. */
    method Lock()
      requires Valid()
      modifies this, Arrays(), secrets
      ensures Valid() && View() == old(View()).(kek := None) && deks == map[] && secrets == []
      ensures forall b :: b in old(Arrays()) || b in old(secrets) ==> Zeroed(b)
    {
      WipeSecrets();
      WipeSlots();
      kek, secrets, deks := None, [], map[];
    }

    method WipeSecrets()
      modifies secrets
      ensures forall b :: b in secrets ==> Zeroed(b)
    {
      var i := 0;
      while i < |secrets|
        invariant 0 <= i <= |secrets|
        invariant forall j :: 0 <= j < i ==> Zeroed(secrets[j])
      {
        Wipe(secrets[i]);
        i := i + 1;
      }
    }

    method WipeSlots()
      modifies Arrays()
      ensures forall b :: b in Arrays() ==> Zeroed(b)
    {
      var rest := deks.Keys;
      while rest != {}
        invariant rest <= deks.Keys
        invariant forall g :: g in deks.Keys - rest ==> Zeroed(deks[g].dek)
        decreases |rest|
      {
        var g :| g in rest;
        Wipe(deks[g].dek);
        rest := rest - {g};
      }
    }

    method PutKeys(kekBytes: array<byte>, privDER: array<byte>, scalar: seq<byte>, cacheKey: seq<byte>)
      requires deks == map[]
      modifies `kek, `secrets
      ensures Valid() && kek == Some(kekBytes[..]) && |secrets| == 4 && secrets[0] == kekBytes && secrets[1] == privDER
      ensures secrets[2][..] == scalar && secrets[3][..] == cacheKey && fresh(secrets[2]) && fresh(secrets[3])
    {
      var d := FromSeq(scalar);
      var cache := FromSeq(cacheKey);
      kek, secrets := Some(kekBytes[..]), [kekBytes, privDER, d, cache];
    }

    /**
      Takes over the two arrays.  A private key that does not parse leaves the vault as it was; a device
      state that cannot be read leaves it locked; both leave the arrays zeroed.
     */
    method Unlock(kekBytes: array<byte>, privDER: array<byte>, scalar: Option<seq<byte>>, cacheKey: seq<byte>, readable: bool)
      returns (ok: bool)
      requires Valid() && kekBytes != privDER && {kekBytes, privDER} !! Arrays()
      requires kekBytes !in secrets && privDER !in secrets
      modifies this, Arrays(), secrets, kekBytes, privDER
      ensures Valid() && ok == (scalar.Some? && readable)
      ensures View() == Do(old(View()), OpenWith(old(kekBytes[..]), PrivateKey(old(privDER[..]), scalar, cacheKey), readable))
      ensures scalar.None? ==> deks == old(deks) && secrets == old(secrets)
      ensures scalar.Some? ==> deks == map[] && forall b :: b in old(Arrays()) || b in old(secrets) ==> Zeroed(b)
      ensures !ok ==> Zeroed(kekBytes) && Zeroed(privDER)
      ensures ok ==> |secrets| == 4 && secrets[0] == kekBytes && secrets[1] == privDER && privDER[..] == old(privDER[..]) &&
                     secrets[2][..] == scalar.value && secrets[3][..] == cacheKey && fresh(secrets[2]) && fresh(secrets[3])
    {
      if scalar.None? {
        Wipe(privDER);
        Wipe(kekBytes);
        return false;
      }
      Lock();
      PutKeys(kekBytes, privDER, scalar.value, cacheKey);
      if !readable {
        Lock();
        return false;
      }
      return true;
    }
  }

  /**
    Any sequence of calls on one vault, each returned array zeroed by the caller at once: every read
    made while the vault is open answers the key last stored for that group and version, if it was
    stored under the same KEK.
   */
  method Replay(v: Vault, ops: seq<Op>) returns (answers: seq<Option<seq<byte>>>)
    requires v.Valid() && v.View() == LOCKED && v.Arrays() == {}
    modifies v
    ensures |answers| == |ops|
    ensures forall i :: 0 <= i < |ops| && ops[i].Read? && DoAll(ops[..i]).kek.Some? ==>
              answers[i] == KeyToRead(ops[..i], ops[i].g, ops[i].kv)
  {
    answers := [];
    var i := 0;
    while i < |ops|
      invariant 0 <= i <= |ops| && |answers| == i
      invariant v.Valid() && v.View() == DoAll(ops[..i]) && fresh(v.Arrays())
      invariant forall k :: 0 <= k < |v.secrets| ==> fresh(v.secrets[k])
      invariant forall j :: 0 <= j < i && ops[j].Read? && DoAll(ops[..j]).kek.Some? ==>
                  answers[j] == KeyToRead(ops[..j], ops[j].g, ops[j].kv)
    {
      assert ops[..i + 1][..i] == ops[..i];
      if ops[i].Read? { ReadsUnderItsKek(ops[..i], ops[i].g, ops[i].kv); }
      var answer := Perform(v, ops[i]);
      answers := answers + [answer];
      i := i + 1;
    }
  }

  method Perform(v: Vault, op: Op) returns (answer: Option<seq<byte>>)
    requires v.Valid()
    modifies v, v.Arrays(), v.secrets
    ensures v.Valid() && v.View() == Do(old(v.View()), op) && fresh(v.Arrays() - old(v.Arrays()))
    ensures v.secrets == old(v.secrets) || forall k :: 0 <= k < |v.secrets| ==> fresh(v.secrets[k])
    ensures op.Read? && v.kek.Some? ==> answer == Lookup(v.View(), op.g, op.kv)
  {
    answer := None;
    match op
    case Insert(g, kv, key) =>
      var dek := FromSeq(key);
      var ok := v.SetDEK(g, kv, dek);
      Wipe(dek);
    case Unwrap(g, kv, clear) =>
      var dek := v.UnwrapDEK(g, kv, clear);
      if dek.Some? { Wipe(dek.value); }
    case Read(g, kv) =>
      var dek := v.GetDEK(g, kv);
      if dek.Some? {
        answer := Some(dek.value[..]);
        Wipe(dek.value);
      }
    case Invalidate(g) => v.InvalidateGroupDEKs(g);
    case LockUp => v.Lock();
    case OpenWith(key, private, readable) =>
      var kekBytes := FromSeq(key);
      var privDER := FromSeq(private.der);
      var ok := v.Unlock(kekBytes, privDER, private.scalar, private.cacheKey, readable);
  }
}
