/** What travels between client and server (`internal/proto`, `internal/model/wire.go`). */
module Wire {
  import opened Base
  import opened Json
  import opened JsonText

  /** A data encryption key, known only by its identity. */
  type Key = nat

  /**
    Ideal encryption.  A sealed text opens only with its key, entry and group; the nonce keeps two
    encryptions of one plaintext apart.  Anything else is junk that never opens; a tombstone carries
    the empty text.
   */
  datatype Ciphertext =
    | Junk(wire: string)
    | Sealed(dek: Key, entry: Id, group: Id, kv: int, text: Json, nonce: nat)

  const EMPTY := Junk("")

  /** A key wrapped for the holder of a public key, who alone can open it; anything else is noise. */
  datatype Wrapped =
    | Wrapped(pub: string, dek: Key)
    | Noise(text: string)

  /** What the holder of the private key makes of it. */
  function Unwrap(pub: string, w: Wrapped): Option<Key> {
    if w.Wrapped? && w.pub == pub then Some(w.dek) else None
  }

  // ---- sizes in bytes ----

  function Utf8Width(c: char): nat {
    if c < '\U{80}' then 1 else if c < '\U{800}' then 2 else if c < '\U{10000}' then 3 else 4
  }

  function Utf8Size(s: string): nat {
    if s == "" then 0 else Utf8Width(s[0]) + Utf8Size(s[1..])
  }

  function Digits(n: nat): nat { if n < 10 then 1 else 1 + Digits(n / 10) }

  /** Bytes of the JSON packet: fixed fields, the version digits and base64 of text plus 16-byte tag. */
  function WireSize(c: Ciphertext): nat {
    match c
    case Junk(wire) => Utf8Size(wire)
    case Sealed(_, _, _, kv, text, _) =>
      118 + (if kv < 0 then 1 + Digits(-kv) else Digits(kv)) + 4 * ((Utf8Size(Print(text)) + 16 + 2) / 3)
  }

  const ERR_BAD_REQUEST := 40001
  const ERR_NOT_MEMBER := 40302
  const ERR_CONFLICT := 40901
  const ERR_KEY_VERSION_STALE := 40902
  const ERR_ENTRY_STATE := 40903
  const ERR_BAD_ENVELOPES := 40904
  const ERR_GROUP_ARCHIVED := 40905
  const ERR_TOO_LARGE := 41301
  const ERR_INTERNAL := 50001

  datatype Change = Change(entry: Id, group: Id, seqNo: int, kv: int, ct: Ciphertext, deleted: bool)

  datatype Mutation = Mutation(entry: Id, group: Id, base: int, kv: int, ct: Ciphertext, deleted: bool)

  datatype PushResult =
    | Accepted(entry: Id, newSeq: int)
    | Refused(entry: Id, code: int, current: Option<Change>)

  datatype Upload = Upload(user: Id, wrapped: Wrapped)

  datatype Envelope = Envelope(group: Id, kv: int, wrapped: Wrapped)

  /** What a pull says about one of the user's groups. */
  datatype GroupState = GroupState(id: Id, kv: int, pending: bool, archived: bool, missing: seq<Id>, active: seq<Id>)

  datatype PullAnswer = PullAnswer(serverSeq: int, changes: seq<Change>, envelopes: seq<Envelope>, groups: seq<GroupState>)
}
