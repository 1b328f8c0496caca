/**
 * The `Photon` envelope (Lux/Stream/Stream+Photon.swift): what a streaming
 * device sends to a tuning one.  It names the server it comes from, says
 * what to do with the payload (only `applyLook` exists) and carries the
 * look as JSON text inside a string.
 */
module Photons {
  import opened Wrappers
  import opened Json
  import opened Looks

  /** `Photon.DataType`, the tag a packet carries. */
  datatype DataType = StringData | ImageData

  function DataTypeRaw(t: DataType): (n: nat)
    ensures t.StringData? <==> n == 1
    ensures t.ImageData? <==> n == 2
  {
    match t
    case StringData => 1
    case ImageData => 2
  }

  /** `Photon.DataType(rawValue:)`. */
  function DataTypeFromRaw(n: int): (r: Option<DataType>)
    ensures r.Some? <==> n == 1 || n == 2
    ensures r.Some? ==> DataTypeRaw(r.value) == n
  {
    if n == 1 then Some(StringData) else if n == 2 then Some(ImageData) else None
  }

  datatype PhotonRole = ApplyLook

  datatype Photon = Photon(serverName: string, role: PhotonRole, metaId: Option<string>, payload: JsonText)

  /** The `lookPayload` getter: the look the payload decodes to, if any. */
  function LookPayload(p: Photon): (r: Option<LookData>)
    ensures r.Some? <==> DecodeLookText(p.payload).Some?
    ensures r.Some? ==> r.value == DecodeLookText(p.payload).value
  {
    DecodeLookText(p.payload)
  }

  /** The `lookPayload` setter: `asJSONString()` of an optional look, which
      is the text `null` for nil. */
  function WithLookPayload(p: Photon, look: Option<LookData>): (r: Photon)
    ensures r.serverName == p.serverName && r.role == p.role && r.metaId == p.metaId
    ensures look.Some? ==> r.payload == LookText(look.value)
    ensures look.None? ==> r.payload == Serialize(JNull)
  {
    match look
    case Some(d) => p.(payload := LookText(d))
    case None => p.(payload := Serialize(JNull))
  }

  /** `init(serverName:look:)`: the server name as given, the only role,
      no `metaId`, and the look as the payload. */
  function NewPhoton(serverName: string, look: LookData): (p: Photon)
    ensures p.serverName == serverName && p.role == ApplyLook && p.metaId.None?
    ensures p.payload == LookText(look)
  {
    WithLookPayload(Photon(serverName, ApplyLook, None, Unparsable("")), Some(look))
  }

  /** The payload of a new photon reads back as the look's encoded fields. */
  lemma NewPhotonPayload(serverName: string, look: LookData)
    ensures LookPayload(NewPhoton(serverName, look)) == Some(Encoded(look))
  {
    DecodeLookTextOf(look);
  }

  /** Setting the payload and reading it back: a look comes back as its
      encoded fields, nil comes back as nil. */
  lemma LookPayloadSetGet(p: Photon, look: Option<LookData>)
    ensures look.Some? ==> LookPayload(WithLookPayload(p, look)) == Some(Encoded(look.value))
    ensures look.None? ==> LookPayload(WithLookPayload(p, look)).None?
  {
    if look.Some? {
      DecodeLookTextOf(look.value);
    }
  }

  // ---------------------------------------------------------------------
  // The synthesized Codable conformance
  // ---------------------------------------------------------------------

  function EncodePhoton(p: Photon): (j: Json)
    ensures j.JObj? && PhotonKey(PhotonServerName) in j.fields && PhotonKey(PhotonRole) in j.fields
    ensures j.JObj? && PhotonKey(PhotonPayload) in j.fields
    ensures PhotonKey(PhotonMetaId) in j.fields <==> p.metaId.Some?
  {
    var base := map[PhotonKey(PhotonServerName) := JStr(p.serverName),
                    PhotonKey(PhotonRole) := JStr("applyLook"),
                    PhotonKey(PhotonPayload) := JText(p.payload)];
    match p.metaId
    case None => JObj(base)
    case Some(id) => JObj(base[PhotonKey(PhotonMetaId) := JStr(id)])
  }

  function DecodePhoton(j: Json): (r: Option<Photon>)
    ensures r.Some? ==> j.JObj? && PhotonKey(PhotonServerName) in j.fields && PhotonKey(PhotonPayload) in j.fields
    ensures r.Some? ==> PhotonKey(PhotonRole) in j.fields && j.fields[PhotonKey(PhotonRole)] == JStr("applyLook")
  {
    var nameJ :- Member(j, PhotonKey(PhotonServerName));
    var name :- AsString(nameJ);
    var roleJ :- Member(j, PhotonKey(PhotonRole));
    var _ :- if roleJ == JStr("applyLook") then Some(ApplyLook) else None;
    var metaId :- if PhotonKey(PhotonMetaId) !in j.fields || j.fields[PhotonKey(PhotonMetaId)].JNull? then Some(None)
                  else match AsString(j.fields[PhotonKey(PhotonMetaId)])
                    case None => None
                    case Some(s) => Some(Some(s));
    var payloadJ :- Member(j, PhotonKey(PhotonPayload));
    var payload :- AsText(payloadJ);
    Some(Photon(name, ApplyLook, metaId, payload))
  }

  lemma DecodeEncodePhoton(p: Photon)
    ensures DecodePhoton(EncodePhoton(p)) == Some(p)
  {
    var j := EncodePhoton(p);
    assert j.fields[PhotonKey(PhotonServerName)] == JStr(p.serverName);
    assert j.fields[PhotonKey(PhotonRole)] == JStr("applyLook");
    assert j.fields[PhotonKey(PhotonPayload)] == JText(p.payload);
    assert p.metaId.Some? ==> j.fields[PhotonKey(PhotonMetaId)] == JStr(p.metaId.value);
    assert AsString(j.fields[PhotonKey(PhotonServerName)]) == Some(p.serverName);
    assert AsText(j.fields[PhotonKey(PhotonPayload)]) == Some(p.payload);
    var r := DecodePhoton(j);
    assert r.Some?;
    assert r.value.serverName == p.serverName;
    assert r.value.payload == p.payload;
    assert r.value.metaId == p.metaId;
    assert r.value.role == p.role;
    assert r.value == p;
  }

  /** `asJSONString()` of a photon. */
  function PhotonText(p: Photon): JsonText {
    Serialize(EncodePhoton(p))
  }

  /** `Codec.object(fromJSON:)` for a photon. */
  function DecodePhotonText(t: JsonText): (r: Option<Photon>)
    ensures r.Some? ==> Parse(t).Some? && DecodePhoton(Parse(t).value) == r
  {
    var j :- Parse(t);
    DecodePhoton(j)
  }

  lemma DecodePhotonTextOf(p: Photon)
    ensures DecodePhotonText(PhotonText(p)) == Some(p)
  {
    DecodeEncodePhoton(p);
  }
}
