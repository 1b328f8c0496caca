/**
 * `Look` (Lux/Look/Look.swift): a named theme holding a light and a dark
 * specification, an optional preferred scheme, the defaults that seed a new
 * `Trait`, and publishing metadata.  The object keeps everything in one
 * `data` record that its setters replace; the record and the functions on it
 * say what every setter writes, and the class methods are proved against
 * them.  The system's own colour scheme, the clock and `UUID()` are
 * parameters.
 */
module Looks {
  import opened Wrappers
  import opened CoreTypes
  import opened Json
  import opened PaletteInfo
  import opened LookFonts
  import opened Specs
  import opened Traits

  // ---------------------------------------------------------------------
  // Look.Meta
  // ---------------------------------------------------------------------

  /** `Look.Meta`; dates are seconds, as `JSONEncoder` writes them. */
  datatype Meta = Meta(
    creationId: string,
    publishedVersion: int,
    createdAt: Option<real>,
    publishedAt: Option<real>,
    metaId: Option<string>,
    metaText: Option<string>,
    lemmaText: Option<string>,
    manifest: Option<string>,
    authorName: Option<string>,
    authorId: Option<string>,
    authorURL: Option<string>,
    coverURL: Option<string>,
    assetURL: Option<string>,
    webURL: Option<string>,
    shortURL: Option<string>,
    qrURL: Option<string>)

  /** `Meta()`: a fresh identifier, version 0, created now, nothing else set. */
  function NewMeta(creationId: string, now: real): (m: Meta)
    ensures m.creationId == creationId && m.publishedVersion == 0 && m.createdAt == Some(now)
    ensures m.publishedAt.None? && m.metaId.None? && m.qrURL.None?
  {
    Meta(creationId, 0, Some(now), None, None, None, None, None, None, None, None, None, None, None, None, None)
  }

  function OptionalNumber(o: Option<real>): Option<Json> {
    match o
    case None => None
    case Some(x) => Some(JNum(x))
  }

  function OptionalText(o: Option<string>): Option<Json> {
    match o
    case None => None
    case Some(s) => Some(JStr(s))
  }

  /** What the synthesized encoder writes under each key of `Meta`:
      nothing for a nil optional (`encodeIfPresent`). */
  function MetaEntry(m: Meta, f: MetaField): Option<Json> {
    match f
    case CreationId => Some(JStr(m.creationId))
    case PublishedVersion => Some(JNum(m.publishedVersion as real))
    case CreatedAt => OptionalNumber(m.createdAt)
    case PublishedAt => OptionalNumber(m.publishedAt)
    case MetaId => OptionalText(m.metaId)
    case MetaText => OptionalText(m.metaText)
    case Lemma => OptionalText(m.lemmaText)
    case Manifest => OptionalText(m.manifest)
    case AuthorName => OptionalText(m.authorName)
    case AuthorId => OptionalText(m.authorId)
    case AuthorURL => OptionalText(m.authorURL)
    case CoverURL => OptionalText(m.coverURL)
    case AssetURL => OptionalText(m.assetURL)
    case WebURL => OptionalText(m.webURL)
    case ShortURL => OptionalText(m.shortURL)
    case QrURL => OptionalText(m.qrURL)
  }

  function EncodeMeta(m: Meta): (j: Json)
    ensures j.JObj? && forall k :: k in j.fields ==> k.MetaKey?
    ensures forall f :: MetaKey(f) in j.fields <==> MetaEntry(m, f).Some?
    ensures forall f :: MetaKey(f) in j.fields ==> j.fields[MetaKey(f)] == MetaEntry(m, f).value
  {
    JObj(map f: MetaField | MetaEntry(m, f).Some? :: MetaKey(f) := MetaEntry(m, f).value)
  }

  /** `decodeIfPresent(Date.self, forKey:)`: a missing key or `null` is nil. */
  function IfPresentNumber(fields: map<Key, Json>, f: MetaField): Option<Option<real>> {
    if MetaKey(f) !in fields || fields[MetaKey(f)].JNull? then Some(None)
    else match AsReal(fields[MetaKey(f)])
      case None => None
      case Some(x) => Some(Some(x))
  }

  /** `decodeIfPresent(String.self, forKey:)`. */
  function IfPresentText(fields: map<Key, Json>, f: MetaField): Option<Option<string>> {
    if MetaKey(f) !in fields || fields[MetaKey(f)].JNull? then Some(None)
    else match AsString(fields[MetaKey(f)])
      case None => None
      case Some(s) => Some(Some(s))
  }

  /** The synthesized decoder: the identifier and the version are required. */
  function DecodeMeta(j: Json): (r: Option<Meta>)
    ensures r.Some? ==> j.JObj? && MetaKey(CreationId) in j.fields && MetaKey(PublishedVersion) in j.fields
  {
    var idJ :- Member(j, MetaKey(CreationId));
    var id :- AsString(idJ);
    var versionJ :- Member(j, MetaKey(PublishedVersion));
    var version :- AsInt(versionJ);
    var createdAt :- IfPresentNumber(j.fields, CreatedAt);
    var publishedAt :- IfPresentNumber(j.fields, PublishedAt);
    var metaId :- IfPresentText(j.fields, MetaId);
    var metaText :- IfPresentText(j.fields, MetaText);
    var lemmaText :- IfPresentText(j.fields, Lemma);
    var manifest :- IfPresentText(j.fields, Manifest);
    var authorName :- IfPresentText(j.fields, AuthorName);
    var authorId :- IfPresentText(j.fields, AuthorId);
    var authorURL :- IfPresentText(j.fields, AuthorURL);
    var coverURL :- IfPresentText(j.fields, CoverURL);
    var assetURL :- IfPresentText(j.fields, AssetURL);
    var webURL :- IfPresentText(j.fields, WebURL);
    var shortURL :- IfPresentText(j.fields, ShortURL);
    var qrURL :- IfPresentText(j.fields, QrURL);
    Some(Meta(id, version, createdAt, publishedAt, metaId, metaText, lemmaText, manifest,
              authorName, authorId, authorURL, coverURL, assetURL, webURL, shortURL, qrURL))
  }

  lemma IfPresentTextOf(fields: map<Key, Json>, f: MetaField, o: Option<string>)
    requires MetaKey(f) in fields <==> o.Some?
    requires MetaKey(f) in fields ==> fields[MetaKey(f)] == JStr(o.value)
    ensures IfPresentText(fields, f) == Some(o)
  {
  }

  lemma IfPresentNumberOf(fields: map<Key, Json>, f: MetaField, o: Option<real>)
    requires MetaKey(f) in fields <==> o.Some?
    requires MetaKey(f) in fields ==> fields[MetaKey(f)] == JNum(o.value)
    ensures IfPresentNumber(fields, f) == Some(o)
  {
  }

  /** The twelve optional text fields of `Meta`. */
  predicate IsTextField(f: MetaField) {
    !(f.CreationId? || f.PublishedVersion? || f.CreatedAt? || f.PublishedAt?)
  }

  function MetaTextOf(m: Meta, f: MetaField): Option<string>
    requires IsTextField(f)
  {
    match f
    case MetaId => m.metaId
    case MetaText => m.metaText
    case Lemma => m.lemmaText
    case Manifest => m.manifest
    case AuthorName => m.authorName
    case AuthorId => m.authorId
    case AuthorURL => m.authorURL
    case CoverURL => m.coverURL
    case AssetURL => m.assetURL
    case WebURL => m.webURL
    case ShortURL => m.shortURL
    case QrURL => m.qrURL
  }

  lemma EncodedTexts(m: Meta)
    ensures forall f :: IsTextField(f) ==> IfPresentText(EncodeMeta(m).fields, f) == Some(MetaTextOf(m, f))
  {
    var j := EncodeMeta(m);
    forall f | IsTextField(f)
      ensures IfPresentText(j.fields, f) == Some(MetaTextOf(m, f))
    {
      assert MetaEntry(m, f) == OptionalText(MetaTextOf(m, f));
      IfPresentTextOf(j.fields, f, MetaTextOf(m, f));
    }
  }

  /** Any object whose members decode to the parts of `m` decodes to `m`. */
  lemma DecodeMetaFrom(j: Json, m: Meta)
    requires j.JObj?
    requires MetaKey(CreationId) in j.fields && j.fields[MetaKey(CreationId)] == JStr(m.creationId)
    requires MetaKey(PublishedVersion) in j.fields && j.fields[MetaKey(PublishedVersion)] == JNum(m.publishedVersion as real)
    requires IfPresentNumber(j.fields, CreatedAt) == Some(m.createdAt)
    requires IfPresentNumber(j.fields, PublishedAt) == Some(m.publishedAt)
    requires forall f :: IsTextField(f) ==> IfPresentText(j.fields, f) == Some(MetaTextOf(m, f))
    ensures DecodeMeta(j) == Some(m)
  {
    assert IfPresentText(j.fields, MetaId) == Some(m.metaId);
    assert IfPresentText(j.fields, MetaText) == Some(m.metaText);
    assert IfPresentText(j.fields, Lemma) == Some(m.lemmaText);
    assert IfPresentText(j.fields, Manifest) == Some(m.manifest);
    assert IfPresentText(j.fields, AuthorName) == Some(m.authorName);
    assert IfPresentText(j.fields, AuthorId) == Some(m.authorId);
    assert IfPresentText(j.fields, AuthorURL) == Some(m.authorURL);
    assert IfPresentText(j.fields, CoverURL) == Some(m.coverURL);
    assert IfPresentText(j.fields, AssetURL) == Some(m.assetURL);
    assert IfPresentText(j.fields, WebURL) == Some(m.webURL);
    assert IfPresentText(j.fields, ShortURL) == Some(m.shortURL);
    assert IfPresentText(j.fields, QrURL) == Some(m.qrURL);
  }

  lemma DecodeEncodeMeta(m: Meta)
    ensures DecodeMeta(EncodeMeta(m)) == Some(m)
  {
    var j := EncodeMeta(m);
    assert MetaEntry(m, CreationId).Some? && MetaEntry(m, PublishedVersion).Some?;
    assert MetaEntry(m, CreatedAt) == OptionalNumber(m.createdAt);
    IfPresentNumberOf(j.fields, CreatedAt, m.createdAt);
    assert MetaEntry(m, PublishedAt) == OptionalNumber(m.publishedAt);
    IfPresentNumberOf(j.fields, PublishedAt, m.publishedAt);
    EncodedTexts(m);
    DecodeMetaFrom(j, m);
  }

  /** `increasePublishedVersion` on the metadata. */
  function Published(m: Meta): (r: Meta)
    ensures r.publishedVersion == m.publishedVersion + 1
    ensures r.(publishedVersion := m.publishedVersion) == m
  {
    m.(publishedVersion := m.publishedVersion + 1)
  }

  // ---------------------------------------------------------------------
  // Look.Data
  // ---------------------------------------------------------------------

  datatype LookData = LookData(
    name: string,
    meta: Meta,
    preferredScheme: Option<Scheme>,
    defaultLayout: Layout,
    defaultSurface: Surface,
    defaultFontMix: FontMix,
    defaultElevation: Elevation,
    specLight: Specification,
    specDark: Specification)

  /** `Data()`: named "Maxwell", no preferred scheme, body on a normal
      surface, fonts by priority at normal elevation.  The two default
      specifications come from system colours and are parameters. */
  function NewData(meta: Meta, specLight: Specification, specDark: Specification): (d: LookData)
    ensures d.name == "Maxwell" && d.meta == meta && d.preferredScheme.None?
    ensures d.specLight == specLight && d.specDark == specDark
    ensures HasDefaults(d)
  {
    LookData("Maxwell", meta, None, Body, Surface.Normal, ByPriority, Elevation.Normal, specLight, specDark)
  }

  predicate HasDefaults(d: LookData) {
    d.defaultLayout == Body && d.defaultSurface == Surface.Normal
    && d.defaultFontMix == ByPriority && d.defaultElevation == Elevation.Normal
  }

  /** `scheme`: the preferred scheme, else the system's. */
  function SchemeOf(d: LookData, system: Scheme): (r: Scheme)
    ensures d.preferredScheme.Some? ==> r == d.preferredScheme.value
    ensures d.preferredScheme.None? ==> r == system
  {
    d.preferredScheme.GetOr(system)
  }

  /** `toggleScheme`: prefer the opposite of the scheme in force. */
  function Toggled(d: LookData, system: Scheme): (r: LookData)
    ensures r.preferredScheme == Some(Opposite(SchemeOf(d, system)))
    ensures r.(preferredScheme := d.preferredScheme) == d
  {
    d.(preferredScheme := Some(if SchemeOf(d, system) == Light then Dark else Light))
  }

  /** Toggling twice brings the scheme back, but leaves a preference behind
      even where there was none. */
  lemma ToggleTwice(d: LookData, system: Scheme)
    ensures SchemeOf(Toggled(Toggled(d, system), system), system) == SchemeOf(d, system)
    ensures Toggled(Toggled(d, system), system).preferredScheme.Some?
    ensures SchemeOf(Toggled(d, system), system) != SchemeOf(d, system)
  {
  }

  /** `resetDefaults`. */
  function ResetDefaultsOf(d: LookData): (r: LookData)
    ensures HasDefaults(r)
    ensures r.name == d.name && r.meta == d.meta && r.preferredScheme == d.preferredScheme
    ensures r.specLight == d.specLight && r.specDark == d.specDark
  {
    d.(defaultLayout := Body, defaultSurface := Surface.Normal, defaultFontMix := ByPriority,
       defaultElevation := Elevation.Normal)
  }

  /** The `spec` getter: the light specification exactly when the scheme is light. */
  function SpecOf(d: LookData, system: Scheme): (s: Specification)
    ensures SchemeOf(d, system) == Light ==> s == d.specLight
    ensures SchemeOf(d, system) == Dark ==> s == d.specDark
  {
    if SchemeOf(d, system) == Light then d.specLight else d.specDark
  }

  /** The `spec` setter writes the branch of the scheme in force and leaves the other. */
  function WithSpec(d: LookData, system: Scheme, s: Specification): (r: LookData)
    ensures SchemeOf(d, system) == Light ==> r == d.(specLight := s)
    ensures SchemeOf(d, system) == Dark ==> r == d.(specDark := s)
  {
    match SchemeOf(d, system)
    case Light => d.(specLight := s)
    case Dark => d.(specDark := s)
  }

  /** Setting the specification and reading it back gives what was set;
      the scheme is not disturbed. */
  lemma SpecSetGet(d: LookData, system: Scheme, s: Specification)
    ensures SchemeOf(WithSpec(d, system, s), system) == SchemeOf(d, system)
    ensures SpecOf(WithSpec(d, system, s), system) == s
  {
  }

  /** `font.priority` and `color.priority` of the specification in force. */
  function FontPriorityOf(d: LookData, system: Scheme): Priority {
    FontsPriority(SpecOf(d, system).font)
  }

  function ColorPriorityOf(d: LookData, system: Scheme): Priority {
    PalettePriority(SpecOf(d, system).color)
  }

  /** The `trait` getter.  The elevation is the `Trait.init` default, read
      from the current look rather than from this one. */
  function TraitOf(d: LookData, system: Scheme, currentElevation: Elevation): (t: Trait)
    ensures t.layout == d.defaultLayout && t.surface == d.defaultSurface
    ensures t.fontPriority == FontPriorityOf(d, system) && t.colorPriority == ColorPriorityOf(d, system)
    ensures t.preferredFontMix == d.defaultFontMix && t.elevation == currentElevation
    ensures t.preferredLightSpec.None? && t.preferredDarkSpec.None?
  {
    MakeTrait(None, d.defaultLayout, d.defaultSurface, FontPriorityOf(d, system),
              ColorPriorityOf(d, system), d.defaultFontMix, currentElevation, None, None)
  }

  /** The `trait` setter: the three defaults, then `font.preferred` and
      `color.preferred`, each written back through the `spec` setter into
      the specification of the scheme in force. */
  function WithTrait(d: LookData, system: Scheme, t: Trait): LookData {
    var d1 := d.(defaultLayout := t.layout, defaultSurface := t.surface, defaultFontMix := t.preferredFontMix);
    var s1 := SpecOf(d1, system);
    var d2 := WithSpec(d1, system, s1.(font := s1.font.(preferred := Some(t.fontPriority))));
    var s2 := SpecOf(d2, system);
    WithSpec(d2, system, s2.(color := s2.color.(preferred := Some(t.colorPriority))))
  }

  /** Reading the trait back keeps what was set; the specification of the
      other scheme is untouched. */
  lemma TraitSetGet(d: LookData, system: Scheme, t: Trait, currentElevation: Elevation)
    ensures var t' := TraitOf(WithTrait(d, system, t), system, currentElevation);
      t'.layout == t.layout && t'.surface == t.surface && t'.preferredFontMix == t.preferredFontMix
      && t'.fontPriority == t.fontPriority && t'.colorPriority == t.colorPriority
    ensures SchemeOf(d, system) == Light ==> WithTrait(d, system, t).specDark == d.specDark
    ensures SchemeOf(d, system) == Dark ==> WithTrait(d, system, t).specLight == d.specLight
  {
  }

  /** `isActive(colorPriority:scheme:)` compares the parameter with itself,
      so only the priority matters. */
  function IsActiveColor(d: LookData, system: Scheme, prio: Priority, scheme: Scheme): (r: bool)
    ensures r <==> ColorPriorityOf(d, system) == prio
  {
    scheme == scheme && ColorPriorityOf(d, system) == prio
  }

  /** `isActive(fontPriority:scheme:)`. */
  function IsActiveFont(d: LookData, system: Scheme, prio: Priority, scheme: Scheme): (r: bool)
    ensures r <==> FontPriorityOf(d, system) == prio
  {
    scheme == scheme && FontPriorityOf(d, system) == prio
  }

  // ---------------------------------------------------------------------
  // The Look codec
  // ---------------------------------------------------------------------

  /** What `encode(to:)` writes under each `CodingKeys` case, given the
      already encoded metadata and specifications. */
  function EncodedLookField(d: LookData, meta: Json, dark: Json, light: Json, f: LookField): Json {
    match f
    case LookMeta => meta
    case LookName => JStr(d.name)
    case EffectDark => dark
    case EffectLight => light
    case PreferredScheme => EncodeOptionalScheme(d.preferredScheme)
    case PreferredLayout => JStr(TextStyleRawValue(d.defaultLayout))
    case PreferredSurface => EncodeSurface(d.defaultSurface)
  }

  function EncodeLookWithParts(d: LookData, meta: Json, dark: Json, light: Json): (j: Json)
    ensures j.JObj? && forall k :: k in j.fields <==> k.LookKey?
    ensures forall f :: j.fields[LookKey(f)] == EncodedLookField(d, meta, dark, light, f)
  {
    JObj(map f: LookField | true :: LookKey(f) := EncodedLookField(d, meta, dark, light, f))
  }

  /** `encode(to:)`: all seven keys, the scheme as `null` when there is no
      preference, the layout as its raw value.  The default font mix and
      elevation are not written. */
  function EncodeLook(d: LookData): (j: Json)
    ensures j == EncodeLookWithParts(d, EncodeMeta(d.meta), EncodeSpecification(d.specDark),
                                     EncodeSpecification(d.specLight))
  {
    EncodeLookWithParts(d, EncodeMeta(d.meta), EncodeSpecification(d.specDark),
                        EncodeSpecification(d.specLight))
  }

  /** All seven `CodingKeys` of a look are present. */
  predicate HasLookKeys(fields: map<Key, Json>) {
    && LookKey(LookMeta) in fields && LookKey(LookName) in fields
    && LookKey(EffectDark) in fields && LookKey(EffectLight) in fields
    && LookKey(PreferredScheme) in fields && LookKey(PreferredLayout) in fields
    && LookKey(PreferredSurface) in fields
  }

  /** `init(from:)`: every key is required (`null` is accepted only for the
      scheme), any raw layout is accepted, and the default font mix and
      elevation keep the values `Data()` starts with. */
  function DecodeLook(j: Json): (r: Option<LookData>)
    ensures r.Some? ==> j.JObj? && HasLookKeys(j.fields)
    ensures r.Some? ==> r.value.defaultFontMix == ByPriority && r.value.defaultElevation == Elevation.Normal
  {
    var metaJ :- Member(j, LookKey(LookMeta));
    var meta :- DecodeMeta(metaJ);
    var nameJ :- Member(j, LookKey(LookName));
    var name :- AsString(nameJ);
    var darkJ :- Member(j, LookKey(EffectDark));
    var dark :- DecodeSpecification(darkJ);
    var lightJ :- Member(j, LookKey(EffectLight));
    var light :- DecodeSpecification(lightJ);
    var schemeJ :- Member(j, LookKey(PreferredScheme));
    var scheme :- DecodeOptionalScheme(schemeJ);
    var surfaceJ :- Member(j, LookKey(PreferredSurface));
    var surface :- DecodeSurface(surfaceJ);
    var layoutJ :- Member(j, LookKey(PreferredLayout));
    var layoutRaw :- AsString(layoutJ);
    Some(LookData(name, meta, scheme, LayoutFromRaw(layoutRaw), surface, ByPriority, Elevation.Normal, light, dark))
  }

  /** What survives an encode and a decode: everything but the default font
      mix and elevation, which come back as `Data()` has them. */
  function Encoded(d: LookData): (r: LookData)
    ensures r.name == d.name && r.meta == d.meta && r.preferredScheme == d.preferredScheme
    ensures r.defaultLayout == d.defaultLayout && r.defaultSurface == d.defaultSurface
    ensures r.specLight == d.specLight && r.specDark == d.specDark
    ensures r.defaultFontMix == ByPriority && r.defaultElevation == Elevation.Normal
  {
    d.(defaultFontMix := ByPriority, defaultElevation := Elevation.Normal)
  }

  /** Any object whose members decode to the parts of `d` decodes to `Encoded(d)`. */
  lemma DecodeLookFrom(j: Json, d: LookData)
    requires j.JObj? && HasLookKeys(j.fields)
    requires DecodeMeta(j.fields[LookKey(LookMeta)]) == Some(d.meta)
    requires j.fields[LookKey(LookName)] == JStr(d.name)
    requires DecodeSpecification(j.fields[LookKey(EffectDark)]) == Some(d.specDark)
    requires DecodeSpecification(j.fields[LookKey(EffectLight)]) == Some(d.specLight)
    requires DecodeOptionalScheme(j.fields[LookKey(PreferredScheme)]) == Some(d.preferredScheme)
    requires DecodeSurface(j.fields[LookKey(PreferredSurface)]) == Some(d.defaultSurface)
    requires j.fields[LookKey(PreferredLayout)] == JStr(TextStyleRawValue(d.defaultLayout))
    ensures DecodeLook(j) == Some(Encoded(d))
  {
    LayoutFromRawOfRaw(d.defaultLayout);
  }

  /** Decoding an encoded look keeps its name, metadata, both specifications,
      preferred scheme, layout and surface, and resets the default font mix
      and elevation. */
  lemma DecodeEncodeLook(d: LookData)
    ensures DecodeLook(EncodeLook(d)) == Some(Encoded(d))
  {
    DecodeEncodeMeta(d.meta);
    DecodeEncodeSpecification(d.specDark);
    DecodeEncodeSpecification(d.specLight);
    DecodeEncodedLookParts(d, EncodeMeta(d.meta), EncodeSpecification(d.specDark),
                           EncodeSpecification(d.specLight));
  }

  /** What each key of an encoded look holds. */
  lemma EncodedLookFields(d: LookData, meta: Json, dark: Json, light: Json)
    ensures var j := EncodeLookWithParts(d, meta, dark, light);
      && HasLookKeys(j.fields)
      && j.fields[LookKey(LookMeta)] == meta
      && j.fields[LookKey(LookName)] == JStr(d.name)
      && j.fields[LookKey(EffectDark)] == dark
      && j.fields[LookKey(EffectLight)] == light
      && j.fields[LookKey(PreferredScheme)] == EncodeOptionalScheme(d.preferredScheme)
      && j.fields[LookKey(PreferredSurface)] == EncodeSurface(d.defaultSurface)
      && j.fields[LookKey(PreferredLayout)] == JStr(TextStyleRawValue(d.defaultLayout))
  {
    var j := EncodeLookWithParts(d, meta, dark, light);
    assert LookKey(LookMeta).LookKey? && LookKey(LookName).LookKey? && LookKey(EffectDark).LookKey?;
    assert LookKey(EffectLight).LookKey? && LookKey(PreferredScheme).LookKey?;
    assert LookKey(PreferredLayout).LookKey? && LookKey(PreferredSurface).LookKey?;
  }

  /** An encoded look decodes to `Encoded` of it whenever its metadata and
      specifications decode to its own. */
  lemma DecodeEncodedLookParts(d: LookData, meta: Json, dark: Json, light: Json)
    requires DecodeMeta(meta) == Some(d.meta)
    requires DecodeSpecification(dark) == Some(d.specDark)
    requires DecodeSpecification(light) == Some(d.specLight)
    ensures DecodeLook(EncodeLookWithParts(d, meta, dark, light)) == Some(Encoded(d))
  {
    EncodedLookFields(d, meta, dark, light);
    DecodeEncodeOptionalScheme(d.preferredScheme);
    SurfaceCodec();
    DecodeLookFrom(EncodeLookWithParts(d, meta, dark, light), d);
  }

  /** `asJSONString()`. */
  function LookText(d: LookData): JsonText {
    Serialize(EncodeLook(d))
  }

  /** `Codec.object(fromJSON:)` for a look: nil unless the text parses and decodes. */
  function DecodeLookText(t: JsonText): (r: Option<LookData>)
    ensures r.Some? ==> Parse(t).Some? && DecodeLook(Parse(t).value) == r
  {
    var j :- Parse(t);
    DecodeLook(j)
  }

  /** The text of a look reads back as `Encoded` of it. */
  lemma DecodeLookTextOf(d: LookData)
    ensures DecodeLookText(LookText(d)) == Some(Encoded(d))
  {
    DecodeEncodeLook(d);
  }

  /** `clone()`: the look through its own JSON text; the fallback `Look()`
      of the failure branch is a parameter. */
  function Clone(d: LookData, fallback: LookData): (r: LookData)
    ensures r == Encoded(d)
  {
    DecodeEncodeLook(d);
    match DecodeLookText(LookText(d))
    case Some(c) => c
    case None => fallback
  }

  /** `instance()`: a clone stamped with a new identifier and creation date. */
  function Instance(d: LookData, fallback: LookData, creationId: string, now: real): (r: LookData)
    ensures r.meta == d.meta.(creationId := creationId, createdAt := Some(now))
    ensures r.(meta := d.meta) == Encoded(d)
  {
    var c := Clone(d, fallback);
    c.(meta := c.meta.(createdAt := Some(now), creationId := creationId))
  }

  // ---------------------------------------------------------------------
  // The Look object
  // ---------------------------------------------------------------------

  /** `Look`: an observable object around one `Data` record.  The system
      colour scheme and the current look's elevation are read from outside
      and are parameters here. */
  class Look {
    var data: LookData

    /** `Look()`, with the `Data()` defaults. */
    constructor(meta: Meta, specLight: Specification, specDark: Specification)
      ensures data == NewData(meta, specLight, specDark)
    {
      data := NewData(meta, specLight, specDark);
    }

    /** A look around an existing record, as `Codec.object(fromJSON:)` builds one. */
    constructor FromData(d: LookData)
      ensures data == d
    {
      data := d;
    }

    /** `scheme`: the preferred scheme, else the system's. */
    function CurrentScheme(system: Scheme): (r: Scheme)
      reads this
      ensures data.preferredScheme.None? ==> r == system
      ensures data.preferredScheme.Some? ==> r == data.preferredScheme.value
    {
      SchemeOf(data, system)
    }

    /** The `spec` getter: the specification of the scheme in force. */
    function CurrentSpec(system: Scheme): (r: Specification)
      reads this
      ensures r == if CurrentScheme(system) == Light then data.specLight else data.specDark
    {
      SpecOf(data, system)
    }

    /** The `trait` getter: the look's defaults and the preferred
        priorities of the specification in force. */
    function CurrentTrait(system: Scheme, currentElevation: Elevation): (r: Trait)
      reads this
      ensures r.layout == data.defaultLayout && r.surface == data.defaultSurface
      ensures r.preferredFontMix == data.defaultFontMix
      ensures r.fontPriority == FontsPriority(CurrentSpec(system).font)
      ensures r.colorPriority == PalettePriority(CurrentSpec(system).color)
    {
      TraitOf(data, system, currentElevation)
    }

    method ToggleScheme(system: Scheme)
      modifies this
      ensures data == Toggled(old(data), system)
      ensures CurrentScheme(system) == Opposite(old(CurrentScheme(system)))
    {
      data := data.(preferredScheme := Some(if CurrentScheme(system) == Light then Dark else Light));
    }

    method PreferredSchemeFromSystem()
      modifies this
      ensures data == old(data).(preferredScheme := None)
      ensures forall system :: CurrentScheme(system) == system
    {
      data := data.(preferredScheme := None);
    }

    method ResetDefaults()
      modifies this
      ensures data == ResetDefaultsOf(old(data))
    {
      data := data.(defaultLayout := Body);
      data := data.(defaultSurface := Surface.Normal);
      data := data.(defaultFontMix := ByPriority);
      data := data.(defaultElevation := Elevation.Normal);
    }

    method IncreasePublishedVersion()
      modifies this
      ensures data == old(data).(meta := Published(old(data).meta))
    {
      data := data.(meta := data.meta.(publishedVersion := data.meta.publishedVersion + 1));
    }

    /** The `spec` setter. */
    method SetSpec(system: Scheme, s: Specification)
      modifies this
      ensures data == WithSpec(old(data), system, s)
      ensures CurrentSpec(system) == s
    {
      if CurrentScheme(system) == Light {
        data := data.(specLight := s);
      } else {
        data := data.(specDark := s);
      }
    }

    /** The `trait` setter: each assignment in turn, the last two through
        the `spec` getter and setter. */
    method SetTrait(system: Scheme, t: Trait)
      modifies this
      ensures data == WithTrait(old(data), system, t)
    {
      data := data.(defaultLayout := t.layout);
      data := data.(defaultSurface := t.surface);
      data := data.(defaultFontMix := t.preferredFontMix);
      var s := CurrentSpec(system);
      SetSpec(system, s.(font := s.font.(preferred := Some(t.fontPriority))));
      s := CurrentSpec(system);
      SetSpec(system, s.(color := s.color.(preferred := Some(t.colorPriority))));
    }
  }
}
