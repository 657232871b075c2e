/** Draftset records: the JSON objects the service returns, the `Draftset`
    value the client builds from each, and the decoding of a listing. */
module Records {
  import opened Values
  import opened Arguments

  /** A draftset as the client holds it. Only the kind is checked; every other
      field is passed through as the service sent it, with null for an optional
      field the record leaves out. */
  datatype Draftset = Draftset(
    id: Json,
    kind: DraftsetKind,
    createdAt: Json,
    updatedAt: Json,
    changes: Json,
    displayName: Json,
    currentOwner: Json,
    submittedBy: Json,
    claimRole: Json,
    claimUser: Json,
    description: Json)

  /** The keys of a record, one per field of `Draftset`. */
  datatype Key =
    | Id | Type | CreatedAt | UpdatedAt | Changes
    | DisplayName | CurrentOwner | SubmittedBy | ClaimRole | ClaimUser | Description

  /** The service's kebab-case name of each key. */
  function KeyName(k: Key): string {
    match k
    case Id => "id"
    case Type => "type"
    case CreatedAt => "created-at"
    case UpdatedAt => "updated-at"
    case Changes => "changes"
    case DisplayName => "display-name"
    case CurrentOwner => "current-owner"
    case SubmittedBy => "submitted-by"
    case ClaimRole => "claim-role"
    case ClaimUser => "claim-user"
    case Description => "description"
  }

  /** The keys a record must have, in the order the client reads them; the
      other six may be left out. */
  const RequiredKeys: seq<Key> := [Id, Type, CreatedAt, UpdatedAt, Changes]

  /** The value `ds` holds under key `k`, as it appears in a record. */
  function Field(ds: Draftset, k: Key): Json {
    match k
    case Id => ds.id
    case Type => JStr(KindName(ds.kind))
    case CreatedAt => ds.createdAt
    case UpdatedAt => ds.updatedAt
    case Changes => ds.changes
    case DisplayName => ds.displayName
    case CurrentOwner => ds.currentOwner
    case SubmittedBy => ds.submittedBy
    case ClaimRole => ds.claimRole
    case ClaimUser => ds.claimUser
    case Description => ds.description
  }

  /** The record the service sends for `ds`. */
  function Encode(ds: Draftset): Json {
    JObj(map[
      "id" := ds.id,
      "type" := JStr(KindName(ds.kind)),
      "created-at" := ds.createdAt,
      "updated-at" := ds.updatedAt,
      "changes" := ds.changes,
      "display-name" := ds.displayName,
      "current-owner" := ds.currentOwner,
      "submitted-by" := ds.submittedBy,
      "claim-role" := ds.claimRole,
      "claim-user" := ds.claimUser,
      "description" := ds.description])
  }

  /** The record of `ds` holds each field under that field's key. */
  lemma EncodeHoldsFields(ds: Draftset, k: Key)
    ensures KeyName(k) in Encode(ds).fields && Encode(ds).fields[KeyName(k)] == Field(ds, k)
  {
  }

  /** The first of `keys` that `fields` lacks: the key whose lookup raises. */
  function FirstMissing(fields: map<string, Json>, keys: seq<Key>): (m: Option<nat>)
    ensures m.None? <==> forall k :: k in keys ==> KeyName(k) in fields
    ensures m.Some? ==> m.value < |keys| && KeyName(keys[m.value]) !in fields
                        && forall j :: 0 <= j < m.value ==> KeyName(keys[j]) in fields
  {
    if keys == [] then None
    else if KeyName(keys[0]) !in fields then Some(0)
    else match FirstMissing(fields, keys[1..])
      case None => assert keys == [keys[0]] + keys[1..]; None
      case Some(j) => Some(j + 1)
  }

  /** The constructor call of the record decoding: the required fields read
      with `d[key]`, the optional ones with `d.get(key, None)`. */
  function Build(fields: map<string, Json>, kind: DraftsetKind): Draftset
    requires forall k :: k in RequiredKeys ==> KeyName(k) in fields
  {
    assert Id in RequiredKeys && CreatedAt in RequiredKeys && UpdatedAt in RequiredKeys && Changes in RequiredKeys;
    Draftset(
      fields[KeyName(Id)], kind, fields[KeyName(CreatedAt)],
      fields[KeyName(UpdatedAt)], fields[KeyName(Changes)],
      GetOrNull(fields, KeyName(DisplayName)), GetOrNull(fields, KeyName(CurrentOwner)),
      GetOrNull(fields, KeyName(SubmittedBy)), GetOrNull(fields, KeyName(ClaimRole)),
      GetOrNull(fields, KeyName(ClaimUser)), GetOrNull(fields, KeyName(Description)))
  }

  /** Apart from its kind, a built draftset holds what the record holds under each key. */
  lemma BuildHoldsFields(fields: map<string, Json>, kind: DraftsetKind)
    requires forall k :: k in RequiredKeys ==> KeyName(k) in fields
    ensures forall k: Key :: k != Type ==> Field(Build(fields, kind), k) == GetOrNull(fields, KeyName(k))
  {
    forall k: Key | k != Type ensures Field(Build(fields, kind), k) == GetOrNull(fields, KeyName(k)) {
      match k
      case Id => assert Id in RequiredKeys;
      case CreatedAt => assert CreatedAt in RequiredKeys;
      case UpdatedAt => assert UpdatedAt in RequiredKeys;
      case Changes => assert Changes in RequiredKeys;
      case _ =>
    }
  }

  /** Building a `Draftset` from one record: the required keys are read in
      order, each missing one raising `KeyError`, the optional ones default to
      null, and the constructor then checks the kind. The result holds exactly
      what the record holds under each of the eleven keys. */
  function DecodeDraftset(d: Json): (r: Result<Draftset>)
    ensures r.Ok? <==> d.JObj? && (forall k :: k in RequiredKeys ==> KeyName(k) in d.fields)
                       && ParseKind(d.fields[KeyName(Type)]).Ok?
    ensures r.Ok? ==> forall k: Key :: Field(r.value, k) == GetOrNull(d.fields, KeyName(k))
    ensures !d.JObj? ==> r == Err(NotSubscriptable)
    ensures d.JObj? && FirstMissing(d.fields, RequiredKeys).Some? ==>
              r == Err(KeyMissing(KeyName(RequiredKeys[FirstMissing(d.fields, RequiredKeys).value])))
    ensures d.JObj? && FirstMissing(d.fields, RequiredKeys).None? && r.Err? ==>
              r.error == AssertionFailed(DraftsetType)
  {
    if !d.JObj? then Err(NotSubscriptable)
    else
      var fields := d.fields;
      var missing := FirstMissing(fields, RequiredKeys);
      if missing.Some? then Err(KeyMissing(KeyName(RequiredKeys[missing.value])))
      else
        assert Type in RequiredKeys;
        var kind := ParseKind(fields[KeyName(Type)]);
        if kind.Err? then Err(kind.error)
        else
          BuildHoldsFields(fields, kind.value);
          Ok(Build(fields, kind.value))
  }

  /** A record holding each field of `ds` under its key decodes to `ds`. */
  lemma DecodeOfFields(d: Json, ds: Draftset)
    requires d.JObj? && forall k: Key :: KeyName(k) in d.fields && d.fields[KeyName(k)] == Field(ds, k)
    ensures DecodeDraftset(d) == Ok(ds)
  {
    assert forall k :: k in RequiredKeys ==> KeyName(k) in d.fields;
    var r := DecodeDraftset(d);
    assert Field(r.value, Type) == Field(ds, Type);
    assert forall k: Key :: Field(r.value, k) == Field(ds, k);
  }

  /** Decoding undoes encoding: every draftset comes back from its record. */
  lemma DecodeEncode(ds: Draftset)
    ensures DecodeDraftset(Encode(ds)) == Ok(ds)
  {
    var d := Encode(ds);
    forall k: Key ensures KeyName(k) in d.fields && d.fields[KeyName(k)] == Field(ds, k) {
      EncodeHoldsFields(ds, k);
    }
    DecodeOfFields(d, ds);
  }

  /** The list comprehension over a listing's items: the first record that
      fails to decode raises, otherwise every record becomes a draftset. */
  function DecodeAll(items: seq<Json>): (r: Result<seq<Draftset>>)
    ensures r.Ok? <==> forall i :: 0 <= i < |items| ==> DecodeDraftset(items[i]).Ok?
    ensures r.Ok? ==> |r.value| == |items|
                      && forall i :: 0 <= i < |items| ==> DecodeDraftset(items[i]) == Ok(r.value[i])
    ensures r.Err? ==> exists i :: 0 <= i < |items| && DecodeDraftset(items[i]) == Err(r.error)
                                   && forall j :: 0 <= j < i ==> DecodeDraftset(items[j]).Ok?
  {
    if items == [] then Ok([])
    else match DecodeDraftset(items[0])
      case Err(e) => Err(e)
      case Ok(first) =>
        match DecodeAll(items[1..])
        case Err(e) =>
          assert forall i :: 1 <= i < |items| ==> items[i] == items[1..][i - 1];
          Err(e)
        case Ok(rest) =>
          assert forall i :: 1 <= i < |items| ==> items[i] == items[1..][i - 1];
          Ok([first] + rest)
  }

  /** Decoding the body of a listing. Iterating a JSON array yields its
      records; iterating an object yields its keys and a string its
      characters, so either decodes to the empty listing when empty and raises
      `TypeError` on its first element otherwise; a scalar cannot be iterated. */
  function DecodeListing(data: Json): (r: Result<seq<Draftset>>)
    ensures data.JArr? ==> (r.Ok? <==> forall i :: 0 <= i < |data.items| ==> DecodeDraftset(data.items[i]).Ok?)
    ensures data.JArr? && r.Ok? ==>
              |r.value| == |data.items| &&
              forall i :: 0 <= i < |data.items| ==> DecodeDraftset(data.items[i]) == Ok(r.value[i])
    ensures data.JObj? || data.JStr? ==>
              r == if data == JObj(map[]) || data == JStr("") then Ok([]) else Err(NotSubscriptable)
    ensures data.JNull? || data.JBool? || data.JNum? ==> r == Err(NotIterable)
  {
    match data
    case JArr(items) => DecodeAll(items)
    case JObj(fields) => if fields == map[] then Ok([]) else Err(NotSubscriptable)
    case JStr(s) => if s == "" then Ok([]) else Err(NotSubscriptable)
    case _ => Err(NotIterable)
  }

  function EncodeAll(dss: seq<Draftset>): (items: seq<Json>)
    ensures |items| == |dss|
    ensures forall i :: 0 <= i < |dss| ==> items[i] == Encode(dss[i])
  {
    if dss == [] then [] else [Encode(dss[0])] + EncodeAll(dss[1..])
  }

  lemma DecodeAllOfDecoded(items: seq<Json>, dss: seq<Draftset>)
    requires |items| == |dss|
    requires forall i :: 0 <= i < |items| ==> DecodeDraftset(items[i]) == Ok(dss[i])
    ensures DecodeAll(items) == Ok(dss)
  {
    var r := DecodeAll(items);
    assert r.Ok?;
    assert |r.value| == |dss|;
    assert forall i :: 0 <= i < |dss| ==> r.value[i] == dss[i];
    assert r.value == dss;
  }

  /** A listing of encoded draftsets decodes to the same draftsets, in order. */
  lemma DecodeListingEncodeAll(dss: seq<Draftset>)
    ensures DecodeListing(JArr(EncodeAll(dss))) == Ok(dss)
  {
    var items := EncodeAll(dss);
    forall i | 0 <= i < |items| ensures DecodeDraftset(items[i]) == Ok(dss[i]) {
      DecodeEncode(dss[i]);
    }
    DecodeAllOfDecoded(items, dss);
  }
}
