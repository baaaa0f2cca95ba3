/**
  JSON documents as trees.  Literals, strings and keys keep their spelling and members their order,
  because the merger compares compacted texts: two trees are equal when those texts are.
 */
module Json {
  import opened Base
  import opened StringLiteral
  import opened StringOrder

  datatype Json =
    | Lit(token: string)
    | Str(raw: string)
    | Arr(items: seq<Json>)
    | Obj(fields: seq<Field>)

  /** The key as it is spelled. */
  datatype Field = Field(rawKey: string, value: Json) {
    function Key(): string { Unescape(rawKey) }
  }

  type Members = map<string, Json>

  const NULL := Lit("null")

  /** Decoding an object into a Go map: for a repeated key the last member wins. */
  function AsMap(fields: seq<Field>): (m: Members)
  {
    if fields == [] then map[]
    else
      var last := fields[|fields| - 1];
      AsMap(fields[..|fields| - 1])[last.Key() := last.value]
  }

  /** Encoding a Go map: members in key order. */
  function FromMap(m: Members): (fields: seq<Field>) {
    var ks := SortedKeys(m.Keys);
    seq(|ks|, i requires 0 <= i < |ks| => Field(Escape(ks[i]), m[ks[i]]))
  }

  lemma {:induction false} AsMapMember(fields: seq<Field>, k: string)
    requires k in AsMap(fields)
    ensures exists i :: 0 <= i < |fields| && fields[i].Key() == k && fields[i].value == AsMap(fields)[k]
  {
    var n := |fields| - 1;
    if fields[n].Key() != k {
      AsMapMember(fields[..n], k);
      var i :| 0 <= i < n && fields[..n][i].Key() == k && fields[..n][i].value == AsMap(fields[..n])[k];
      assert fields[i].Key() == k && fields[i].value == AsMap(fields)[k];
    } else {
      assert fields[n].Key() == k && fields[n].value == AsMap(fields)[k];
    }
  }

  lemma {:induction false} KeyPresent(fields: seq<Field>, i: nat)
    requires i < |fields|
    ensures fields[i].Key() in AsMap(fields)
  {
    if i < |fields| - 1 { KeyPresent(fields[..|fields| - 1], i); }
  }

  lemma EncodedMember(m: Members, k: string)
    requires k in m
    ensures k in AsMap(FromMap(m))
  {
    var ks := SortedKeys(m.Keys);
    assert k in ks;
    var i :| 0 <= i < |ks| && ks[i] == k;
    KeyPresent(FromMap(m), i);
    UnescapeEscape(k);
  }

  lemma DecodedMember(m: Members, k: string)
    requires k in AsMap(FromMap(m))
    ensures k in m && AsMap(FromMap(m))[k] == m[k]
  {
    AsMapMember(FromMap(m), k);
    var fields, ks := FromMap(m), SortedKeys(m.Keys);
    var i :| 0 <= i < |fields| && fields[i].Key() == k && fields[i].value == AsMap(fields)[k];
    UnescapeEscape(ks[i]);
    assert ks[i] in ks;
  }

  /** Decoding an encoded map gives the map back. */
  lemma MapRoundTrip(m: Members)
    ensures AsMap(FromMap(m)) == m
  {
    var d := AsMap(FromMap(m));
    forall k | k in m ensures k in d { EncodedMember(m, k); }
    forall k | k in d ensures k in m && d[k] == m[k] { DecodedMember(m, k); }
  }

  /** `json.Unmarshal` into a map: objects only, except that a bare `null` leaves the map empty. */
  function ParseObject(j: Json): Option<Members> {
    match j
    case Obj(fields) => Some(AsMap(fields))
    case Lit(token) => if token == "null" then Some(map[]) else None
    case _ => None
  }

  // ---- nesting depth ----

  ghost function Depth(j: Json): nat {
    if j.Obj? then 1 + FieldsDepth(j.fields) else 0
  }

  ghost function FieldsDepth(fields: seq<Field>): nat {
    if fields == [] then 0 else Max(Depth(fields[0].value), FieldsDepth(fields[1..]))
  }

  lemma {:induction false} FieldsDepthBounds(fields: seq<Field>, i: nat)
    requires i < |fields|
    ensures Depth(fields[i].value) <= FieldsDepth(fields)
  {
    if i > 0 { FieldsDepthBounds(fields[1..], i - 1); }
  }

  ghost function MapDepth(m: Members): (d: nat)
    ensures forall k :: k in m ==> Depth(m[k]) <= d
    ensures d == 0 || exists k :: k in m && d == Depth(m[k])
    decreases m.Keys
  {
    if m == map[] then 0
    else
      var k :| k in m;
      var rest := m - {k};
      assert forall j :: j in m && j != k ==> j in rest && rest[j] == m[j];
      Max(Depth(m[k]), MapDepth(rest))
  }

  lemma ObjDepth(fields: seq<Field>)
    ensures MapDepth(AsMap(fields)) < Depth(Obj(fields))
  {
    var m := AsMap(fields);
    if MapDepth(m) != 0 {
      var k :| k in m && MapDepth(m) == Depth(m[k]);
      AsMapMember(fields, k);
      var i :| 0 <= i < |fields| && fields[i].Key() == k && fields[i].value == m[k];
      FieldsDepthBounds(fields, i);
    }
  }
}
