/**
 * The JSON layer that Foundation's `JSONEncoder`/`JSONDecoder` provide to the
 * `Codable` types of Lux (Lux/Xtensions/Codable.swift).  A document is a tree
 * of values; object keys are the coding keys the Lux types declare.  Text is
 * either the serialised form of a document or something that does not parse,
 * and `Data` is either UTF-8 text or bytes that are not UTF-8.
 */
module Json {
  import opened Wrappers
  import opened CoreTypes

  // ---------------------------------------------------------------------
  // Coding keys: one enum per encoded Lux type, as each declares its own
  // `CodingKeys` (or has them synthesized from its stored properties).
  // ---------------------------------------------------------------------

  /** `Look.CodingKeys`. */
  datatype LookField = LookMeta | LookName | EffectDark | EffectLight
                     | PreferredScheme | PreferredLayout | PreferredSurface

  /** The stored properties of `Look.Meta`. */
  datatype MetaField = CreationId | PublishedVersion | CreatedAt | PublishedAt | MetaId | MetaText
                     | Lemma | Manifest | AuthorName | AuthorId | AuthorURL | CoverURL | AssetURL
                     | WebURL | ShortURL | QrURL

  /** The stored properties of `Look.Specification`. */
  datatype SpecField = TextureField | ColorField | FontField | TintField | FillField
                     | ElevationField | CornerRadiusField | PaddingField | ShadowField

  /** `Look.Fonts.CodingKeys`. */
  datatype FontsField = FontsPreferred | FontsPrimary | FontsSecondary | FontsTertiary

  /** `Look.PaletteScheme.CodingKeys`: `preferred` and one key per colour. */
  datatype PaletteField = PalettePreferred | PaletteColor(slot: ColorSlot)

  /** The stored properties of `CodableColor`. */
  datatype ComponentField = Red | Green | Blue | Alpha

  /** `CodableFont.CodingKeys`. */
  datatype CodableFontField = FontSize | FontName | FontDescriptorData

  /** The stored properties of `Photon`. */
  datatype PhotonField = PhotonServerName | PhotonRole | PhotonMetaId | PhotonPayload

  /** The stored properties of `MultiPeer.Packet`. */
  datatype PacketField = PacketData | PacketType

  datatype Key =
    | LookKey(look: LookField)
    | MetaKey(meta: MetaField)
    | SpecKey(spec: SpecField)
    | FontsKey(fonts: FontsField)
    | PaletteKey(palette: PaletteField)
    | ComponentKey(component: ComponentField)
    | FontKey(font: CodableFontField)
    | PhotonKey(photon: PhotonField)
    | PacketKey(packet: PacketField)

  datatype Json =
    | JNull
    | JBool(b: bool)
    | JNum(n: real)
    | JStr(s: string)
    /** A `Data` value, which `JSONEncoder` writes as a base64 string. */
    | JData(bytes: Bytes)
    /** A string whose contents are themselves JSON text (a photon's payload). */
    | JText(text: JsonText)
    | JObj(fields: map<Key, Json>)

  /** A Swift `String` as the JSON coders see it. */
  datatype JsonText = Doc(json: Json) | Unparsable(raw: string)

  /** A Foundation `Data` value: UTF-8 text, the keyed archive of a font
      descriptor (`NSKeyedArchiver`), or other bytes. */
  datatype Bytes = Utf8(text: JsonText) | KeyedArchive(root: FontDescriptor) | OtherBytes(raw: seq<bv8>)

  /** `JSONEncoder` followed by `String(data:encoding:)`: always succeeds. */
  function Serialize(j: Json): (r: JsonText)
    ensures Parse(r) == Some(j)
  {
    Doc(j)
  }

  /** `JSONDecoder`'s first step: the text must parse as a document. */
  function Parse(t: JsonText): (r: Option<Json>)
    ensures r.None? <==> t.Unparsable?
  {
    match t
    case Doc(j) => Some(j)
    case Unparsable(_) => None
  }

  /** `String.data(using: .utf8)`, which never fails for a Swift string. */
  function Utf8Data(t: JsonText): Bytes {
    Utf8(t)
  }

  /** `String(data:encoding: .utf8)`. */
  function StringFromData(b: Bytes): Option<JsonText> {
    match b
    case Utf8(t) => Some(t)
    case _ => None
  }

  /** `NSKeyedUnarchiver.unarchivedObject(ofClass: UIFontDescriptor.self, from:)`. */
  function Unarchive(b: Bytes): (r: Option<FontDescriptor>)
    ensures r.Some? <==> b.KeyedArchive?
  {
    if b.KeyedArchive? then Some(b.root) else None
  }

  // ---------------------------------------------------------------------
  // Keyed containers
  // ---------------------------------------------------------------------

  /** `container.decode(_:forKey:)` finds the value only in an object that has the key. */
  function Member(j: Json, k: Key): (r: Option<Json>)
    ensures r.Some? <==> j.JObj? && k in j.fields
  {
    if j.JObj? && k in j.fields then Some(j.fields[k]) else None
  }

  function AsString(j: Json): Option<string> {
    if j.JStr? then Some(j.s) else None
  }

  function AsReal(j: Json): Option<real> {
    if j.JNum? then Some(j.n) else None
  }

  function AsBool(j: Json): Option<bool> {
    if j.JBool? then Some(j.b) else None
  }

  function AsData(j: Json): Option<Bytes> {
    if j.JData? then Some(j.bytes) else None
  }

  function AsText(j: Json): Option<JsonText> {
    if j.JText? then Some(j.text) else None
  }

  /** An `Int` is decoded only from a number with no fractional part. */
  function AsInt(j: Json): (r: Option<int>)
    ensures r.Some? ==> j == JNum(r.value as real)
  {
    if j.JNum? && j.n.Floor as real == j.n then Some(j.n.Floor) else None
  }

  function EncodeString(s: string): Json { JStr(s) }
  function EncodeReal(x: real): Json { JNum(x) }

  // ---------------------------------------------------------------------
  // String-backed enums (`enum E: String, Codable`) are written as their raw value.
  // ---------------------------------------------------------------------

  function PriorityRaw(p: Priority): string {
    match p
    case Primary => "primary"
    case Secondary => "secondary"
    case Tertiary => "tertiary"
  }

  function EncodePriority(p: Priority): Json { JStr(PriorityRaw(p)) }

  function DecodePriority(j: Json): (r: Option<Priority>)
    ensures r.Some? ==> EncodePriority(r.value) == j
  {
    if j == JStr("primary") then Some(Primary)
    else if j == JStr("secondary") then Some(Secondary)
    else if j == JStr("tertiary") then Some(Tertiary)
    else None
  }

  function SchemeRaw(s: Scheme): string {
    match s
    case Light => "light"
    case Dark => "dark"
  }

  function EncodeScheme(s: Scheme): Json { JStr(SchemeRaw(s)) }

  function DecodeScheme(j: Json): (r: Option<Scheme>)
    ensures r.Some? ==> EncodeScheme(r.value) == j
  {
    if j == JStr("light") then Some(Light)
    else if j == JStr("dark") then Some(Dark)
    else None
  }

  function EncodeSurface(s: Surface): Json { JStr(SurfaceRawValue(s)) }

  function DecodeSurface(j: Json): (r: Option<Surface>)
    ensures r.Some? ==> EncodeSurface(r.value) == j
  {
    if j == JStr("canvas") then Some(Canvas)
    else if j == JStr("normal") then Some(Surface.Normal)
    else if j == JStr("accent") then Some(Accent)
    else if j == JStr("active") then Some(Active)
    else None
  }

  /** `encode(_ value: Priority?)` writes `null` for nil. */
  function EncodeOptionalPriority(o: Option<Priority>): (j: Json)
    ensures j.JNull? <==> o.None?
  {
    match o
    case None => JNull
    case Some(v) => EncodePriority(v)
  }

  /** `decode(Priority?.self, forKey:)`: `null` gives nil, anything else must decode. */
  function DecodeOptionalPriority(j: Json): (r: Option<Option<Priority>>)
    ensures r.Some? && r.value.Some? ==> EncodePriority(r.value.value) == j
  {
    if j.JNull? then Some(None)
    else match DecodePriority(j)
      case None => None
      case Some(v) => Some(Some(v))
  }

  /** `encode(_ value: Scheme?)`. */
  function EncodeOptionalScheme(o: Option<Scheme>): (j: Json)
    ensures j.JNull? <==> o.None?
  {
    match o
    case None => JNull
    case Some(v) => EncodeScheme(v)
  }

  /** `decode(Scheme?.self, forKey:)`. */
  function DecodeOptionalScheme(j: Json): (r: Option<Option<Scheme>>)
    ensures r.Some? && r.value.Some? ==> EncodeScheme(r.value.value) == j
  {
    if j.JNull? then Some(None)
    else match DecodeScheme(j)
      case None => None
      case Some(v) => Some(Some(v))
  }

  /** Each raw-value codec reads back what it writes, and never writes `null`. */
  lemma PriorityCodec()
    ensures forall p :: DecodePriority(EncodePriority(p)) == Some(p) && !EncodePriority(p).JNull?
  {
    forall p: Priority ensures DecodePriority(EncodePriority(p)) == Some(p) {
      match p
      case Primary => {}
      case Secondary => {}
      case Tertiary => {}
    }
  }

  lemma SchemeCodec()
    ensures forall s :: DecodeScheme(EncodeScheme(s)) == Some(s) && !EncodeScheme(s).JNull?
  {
  }

  lemma SurfaceCodec()
    ensures forall s :: DecodeSurface(EncodeSurface(s)) == Some(s) && !EncodeSurface(s).JNull?
  {
    forall s: Surface ensures DecodeSurface(EncodeSurface(s)) == Some(s) {
      match s
      case Canvas => {}
      case Normal => {}
      case Accent => {}
      case Active => {}
    }
  }

  /** An optional priority written with `encode` reads back with `decode(Priority?.self)`. */
  lemma DecodeEncodeOptionalPriority(o: Option<Priority>)
    ensures DecodeOptionalPriority(EncodeOptionalPriority(o)) == Some(o)
  {
    PriorityCodec();
  }

  /** The same for an optional scheme. */
  lemma DecodeEncodeOptionalScheme(o: Option<Scheme>)
    ensures DecodeOptionalScheme(EncodeOptionalScheme(o)) == Some(o)
  {
    SchemeCodec();
  }
}
