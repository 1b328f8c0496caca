# Lux in Dafny

Lux is a SwiftUI styling library. It has three parts.

- **Look.** A look is a pair of specifications, one per colour scheme. Each specification holds a palette, three fonts and some effect values. A look is encoded as JSON and can be published and streamed between devices.
- **Trait and tweaks.** A trait is a record of styling choices: surface, layout, elevation, font and colour priorities, font mix, scheme, overrides, multipliers and edges. Tweaks are named edits of a trait.
- **The `Lux` object.** It composes a view from tweaks, features (view modifiers) and styles (preset lists of tweaks and features). It keeps two append-only logs of what was applied.

Streaming works like this. A `LuxStream` session broadcasts the current look over a peer-to-peer transport as a `Photon` envelope. A tuning device receives the envelope and adopts the look it carries.

This project models that core in Dafny. Each source type becomes a Dafny type of the same kind.

- Value types are datatypes and functions: `Trait`, `Tweak.apply`, the styles, the palette and fonts, photons, and the JSON documents the `Codable` types encode to.
- Objects whose fields change are classes with methods that state the complete new state. These are `Lux`, `Look`, the current-look holder, `LuxStream`, `MultiPeer` and the stream globals.
- Loops in the source are methods with loop invariants, proved against fold functions:
  - the variadic `tweak`, `feature` and `style` calls;
  - `Style.render`;
  - `complementary*(level:)`;
  - the hex scanner.

Globals are passed in as parameters:

- `Look.current`;
- the system colour scheme;
- the device idiom;
- text sizes;
- the colours a palette paints.

Modules, one per file:

| File | Module | Models |
|---|---|---|
| `wrappers.dfy` | `Wrappers` | `Option` |
| `core_types.dfy` | `CoreTypes` | `Surface`, `Priority`, `Elevation`, `Layout` (`UIFont.TextStyle`), fonts and colours |
| `json.dfy` | `Json` | The documents the synthesized `Codable` conformances read and write; the archived font descriptor |
| `utf8.dfy` | `Utf8` | `String` ↔ `Data` in UTF-8 |
| `extensions.dfy` | `Extensions` | `alphanumeric`, base64 (section 4 of RFC 4648), the hex colour initialisers, `TextStyle.displayName` |
| `palette_info.dfy` | `PaletteInfo` | `Look.PaletteScheme` |
| `look_fonts.dfy` | `LookFonts` | `Look.Fonts` |
| `specification.dfy` | `Specs` | `Look.Specification` |
| `looks.dfy` | `Looks` | `Look` |
| `look_current.dfy` | `LookCurrent` | `Look.current` |
| `trait.dfy` | `Traits` | `Trait` |
| `tweaks.dfy` | `Tweaks` | `Lux.Tweak` |
| `trait_operators.dfy` | `TraitOperators` | The trait operators |
| `trait_properties.dfy` | `TraitProperties` | The trait's computed properties |
| `features.dfy` | `Features` | `Lux.Feature` |
| `styles.dfy` | `Styles` | `Lux.Style` and its presets |
| `lux.dfy` | `LuxCore` | The `Lux` object and its composition calls |
| `photon.dfy` | `Photons` | `Photon` |
| `multipeer.dfy` | `MultiPeers` | `MultiPeer` |
| `lux_stream.dfy` | `Streams` | `LuxStream` |
| `look_stream.dfy` | `LookStreams` | `Look.stream()` and the streaming configurations |

Some behaviour of the code differs from what its names suggest. The model follows the code.

- The hash guard in `connectIntent` never skips a repeated connection.
  - `connect()` calls `disconnectNow()`, which clears the `connectedConfig` that was just assigned.
  - `Streams.LuxStream.ConnectIntent` states this outcome.
- `connect()` initialises the transport with `streamName`. It does not use `serviceType`, which is `"01"` followed by `streamName`.
- `configHash` leaves out the server name.
- `tune` stores `nil` when the payload does not decode.
- `isActive(color:scheme:)` and `isActive(font:scheme:)` ignore their scheme argument.
- `multiply` assigns the multiplier rather than multiplying it.
- `complementary*(level:)` require a non-negative level, because the range `0 ..< level` traps on a negative one.
- Trait `==` compares hashes that leave out the elevation, the multipliers, the edges and `surfaceIgnoresSafeArea`.

## Model

| member | source | states |
|---|---|---|
| `CoreTypes.SurfaceDisplayNameOf` | Lux/Core/CoreTypes.swift:19-27 | `displayName` is the raw value with its first letter upper-cased |
| `CoreTypes.SurfaceDisplayNameInjective` | Lux/Core/CoreTypes.swift:19-27 | Two surfaces have the same display name exactly when they are the same surface |
| `CoreTypes.PrioritySpecName` | Lux/Core/CoreTypes.swift:35-44 | `specName` is one character: a digit 1–3 when numeric, otherwise a letter A–C, offset by the priority's position |
| `CoreTypes.PrioritySpecNameInjective` | Lux/Core/CoreTypes.swift:35-44 | The spec name determines both the priority and whether it was numeric |
| `CoreTypes.Opposite` | Lux/Look/Look.swift:250-252 | The opposite scheme is never the scheme itself |
| `CoreTypes.ElevationValue` | Lux/Core/CoreTypes.swift:86-107 | `value` lies in -4..4 and is the case's position in declaration order minus 4 |
| `CoreTypes.ComplementaryElevation` | Lux/Core/CoreTypes.swift:63-84 | The complementary elevation has the negated value |
| `CoreTypes.ElevationValueInjective` | Lux/Core/CoreTypes.swift:52-107 | `value` is injective and increases in declaration order |
| `CoreTypes.ComplementaryElevationInvolution` | Lux/Core/CoreTypes.swift:63-84 | `complementary` applied twice gives back the elevation |
| `CoreTypes.ComplementaryElevationFixedPoint` | Lux/Core/CoreTypes.swift:63-84 | `normal` is the only fixed point of `complementary` |
| `CoreTypes.LayoutFromRaw` | Lux/Look/Look.swift:79-80 | `TextStyle(rawValue:)` gives a style whose raw value is the text it was given |
| `CoreTypes.LayoutFromRawOfRaw` | Lux/Look/Look.swift:79-80 | A style survives the trip through its raw value |
| `CoreTypes.LayoutRawValueInjective` | Lux/Core/CoreTypes.swift:14-17 | Two styles are equal exactly when their raw values are |
| `CoreTypes.WithSize` | Lux/Look/Look+Fonts.swift:50-57 | `withSize` keeps the font's descriptor and sets its size |
| `Json.Unarchive` | Lux/Look/Look+CodableHelpers.swift:26-39 | Unarchiving succeeds exactly on archived descriptor data |
| `Json.Serialize` | Lux/Xtensions/Codable.swift:39-43 | Encoding always succeeds, and its text parses back to the same document |
| `Json.Parse` | Lux/Xtensions/Codable.swift:45-50 | Decoding fails exactly on text that is not a document |
| `Json.Member` | Lux/Look/Look+CodableHelpers.swift:47-53 | A keyed read succeeds exactly when the document is an object that holds the key |
| `Json.AsInt` | Lux/Look/Look.swift:13-30 | An integer is read back only from the number it was written as |
| `Json.DecodePriority` | Lux/Core/CoreTypes.swift:30-33 | A decoded priority encodes back to the document it came from |
| `Json.DecodeScheme` | Lux/Look/Look.swift:76-90 | A decoded scheme encodes back to the document it came from |
| `Json.DecodeSurface` | Lux/Core/CoreTypes.swift:19-23 | A decoded surface encodes back to the document it came from |
| `Json.EncodeOptionalPriority` | Lux/Look/Look+Fonts.swift:77-77 | An optional priority encodes to null exactly when it is nil |
| `Json.DecodeOptionalPriority` | Lux/Look/Look+Fonts.swift:68-68 | A decoded non-nil priority encodes back to its document |
| `Json.EncodeOptionalScheme` | Lux/Look/Look.swift:90-90 | An optional scheme encodes to null exactly when it is nil |
| `Json.DecodeOptionalScheme` | Lux/Look/Look.swift:76-76 | A decoded non-nil scheme encodes back to its document |
| `Json.PriorityCodec` | Lux/Core/CoreTypes.swift:30-33 | Every priority decodes from its encoding, which is never null |
| `Json.SchemeCodec` | Lux/Look/Look.swift:76-90 | Every scheme decodes from its encoding, which is never null |
| `Json.SurfaceCodec` | Lux/Core/CoreTypes.swift:19-23 | Every surface decodes from its encoding, which is never null |
| `Json.DecodeEncodeOptionalPriority` | Lux/Look/Look+Fonts.swift:68-77 | nil and every priority survive the optional encoding |
| `Json.DecodeEncodeOptionalScheme` | Lux/Look/Look.swift:76-90 | nil and every scheme survive the optional encoding |
| `Utf8.EncodeChar` | Lux/Xtensions/Extensions.swift:538-538 | A scalar value becomes one to four bytes in shortest UTF-8 form |
| `Utf8.DecodeChar` | Lux/Xtensions/Extensions.swift:546-546 | Decoding reads one scalar value and reports how many bytes it used |
| `Utf8.SixBitGroups` | Lux/Xtensions/Extensions.swift:538-546 | A value splits into six-bit groups and is rebuilt from them |
| `Utf8.DecodeCharEncodeTwo` | Lux/Xtensions/Extensions.swift:538-546 | A two-byte scalar decodes back from its encoding, whatever bytes follow |
| `Utf8.DecodeCharEncodeThree` | Lux/Xtensions/Extensions.swift:538-546 | A three-byte scalar decodes back from its encoding, whatever bytes follow |
| `Utf8.DecodeCharEncodeFour` | Lux/Xtensions/Extensions.swift:538-546 | A four-byte scalar decodes back from its encoding, whatever bytes follow |
| `Utf8.DecodeCharEncodeChar` | Lux/Xtensions/Extensions.swift:538-546 | Every scalar decodes back from its encoding, whatever bytes follow |
| `Utf8.DecodeEncode` | Lux/Xtensions/Extensions.swift:538-546 | Every string survives the trip through UTF-8 bytes |
| `Utf8.Encode` | Lux/Xtensions/Extensions.swift:538-538 | Each character takes one to four bytes; `Utf8.DecodeEncode` states that the bytes decode back |
| `Utf8.Decode` | Lux/Xtensions/Extensions.swift:546-546 | A decoded string has no more characters than it had bytes |
| `Extensions.Alphanumeric` | Lux/Xtensions/Extensions.swift:554-557 | `alphanumeric` is no longer than its input and holds only alphanumeric characters |
| `Extensions.AlphanumericAppend` | Lux/Xtensions/Extensions.swift:554-557 | Filtering distributes over concatenation, so the kept characters stay in their original order |
| `Extensions.AlphanumericMembership` | Lux/Xtensions/Extensions.swift:554-557 | A character is kept exactly when it occurs in the input and is alphanumeric |
| `Extensions.AlphanumericKeepsAlphanumeric` | Lux/Xtensions/Extensions.swift:554-557 | An all-alphanumeric string is left as it is |
| `Extensions.AlphanumericIdempotent` | Lux/Xtensions/Extensions.swift:554-557 | Filtering twice is filtering once |
| `Extensions.Lowercased` | Lux/Stream/LuxStream.swift:30-32 | `lowercased()` keeps the length and lower-cases each character |
| `Extensions.Base64IndexOfChar` | Lux/Xtensions/Extensions.swift:536-552 | Each of the 64 alphabet characters maps back to its index |
| `Extensions.Base64Index` | Lux/Xtensions/Extensions.swift:543-550 | A character's index, when it has one, names that character |
| `Extensions.EncodeBytes` | Lux/Xtensions/Extensions.swift:537-541 | The encoding has four characters per started group of three bytes |
| `Extensions.EncodeBytesAlphabet` | Lux/Xtensions/Extensions.swift:537-541 | Every character of the encoding is from the alphabet or is the padding `=` |
| `Extensions.EncodeQuadInAlphabet` | Lux/Xtensions/Extensions.swift:537-541 | A full group of three bytes encodes to four alphabet characters |
| `Extensions.DecodeText` | Lux/Xtensions/Extensions.swift:543-550 | Only text whose length is a multiple of four decodes |
| `Extensions.DecodeEncodeQuad` | Lux/Xtensions/Extensions.swift:536-552 | Three bytes survive a full quantum |
| `Extensions.DecodeEncodeOne` | Lux/Xtensions/Extensions.swift:536-552 | A final single byte survives its padded quantum |
| `Extensions.DecodeEncodeTwo` | Lux/Xtensions/Extensions.swift:536-552 | Two final bytes survive their padded quantum |
| `Extensions.DecodeEncodeGroup` | Lux/Xtensions/Extensions.swift:536-552 | A group of three in front of a decodable tail still decodes |
| `Extensions.DecodeEncodeBytes` | Lux/Xtensions/Extensions.swift:536-552 | Every byte sequence survives base64 |
| `Extensions.Base64Decoded` | Lux/Xtensions/Extensions.swift:543-550 | Text whose length is not a multiple of four decodes to the empty string |
| `Extensions.Base64RoundTrip` | Lux/Xtensions/Extensions.swift:536-552 | `base64Decoded(base64Encoded(s)) == s` for every string |
| `Extensions.Base64Encoded` | Lux/Xtensions/Extensions.swift:536-540 | `base64Encoded()` yields whole four-character quanta; `Extensions.Base64RoundTrip` states that they decode back to the string |
| `Extensions.HexValueBound` | Lux/Xtensions/Extensions.swift:51-53 | n hex digits hold a value below 16^n |
| `Extensions.SkipSpace` | Lux/Xtensions/Extensions.swift:51-53 | The scanner skips exactly the leading run of Foundation's whitespace and newline characters, Unicode separators included |
| `Extensions.ScanHexSkipsUnicodeSpace` | Lux/Xtensions/Extensions.swift:51-53 | A vertical tab, an ideographic space or a no-break space before the digits is skipped |
| `Extensions.ScanHex` | Lux/Xtensions/Extensions.swift:51-53 | `scanHexInt64` fails exactly when no hex digit follows the skipped space and optional `0x`, and its value never exceeds `UInt64.max` |
| `Extensions.HexRunEnd` | Lux/Xtensions/Extensions.swift:51-53 | The run of hex digits ends at the first non-digit |
| `Extensions.SaturatingStepIsMin` | Lux/Xtensions/Extensions.swift:51-53 | Accumulating one digit with saturation is the unsaturated value capped at the 64-bit maximum |
| `Extensions.ScanHexInt64` | Lux/Xtensions/Extensions.swift:91-92 | The scanning loop reports success exactly when the text scans, with the capped value of its digits |
| `Extensions.ColorFromHex` | Lux/Xtensions/Extensions.swift:49-61 | `Color(hex:)` takes its channels from the scanned value (zero when the scan fails), fully opaque |
| `Extensions.RgbColorLowBits` | Lux/Xtensions/Extensions.swift:49-61 | The channels are bits 23..16, 15..8 and 7..0, and higher bits are discarded |
| `Extensions.UIColorFromHex` | Lux/Xtensions/Extensions.swift:80-104 | `UIColor(hex:)` succeeds exactly for "#" plus eight characters that scan, and then reads the four bytes |
| `Extensions.RgbaColorBytes` | Lux/Xtensions/Extensions.swift:91-97 | The four channels are bytes 31..24, 23..16, 15..8 and 7..0, each scaled back to exactly its byte |
| `Extensions.UIColorFromEightDigits` | Lux/Xtensions/Extensions.swift:88-93 | Eight hex digits after "#" always scan, to a 32-bit value |
| `Extensions.TextStyleDisplayName` | Lux/Xtensions/Extensions.swift:144-165 | Title variants are "Title", caption variants are "Caption", and exactly the unknown styles are "Undefined Trait" |
| `PaletteInfo.AllClear` | Lux/Look/Look+PaletteInfo.swift:17-46 | Every palette slot holds clear |
| `PaletteInfo.DefaultPalette` | Lux/Look/Look+PaletteInfo.swift:17-46 | A new palette has no preference and takes its non-brand colours from the system |
| `PaletteInfo.PalettePriority` | Lux/Look/Look+PaletteInfo.swift:196-198 | `priority` is `preferred`, or primary when nil |
| `PaletteInfo.PaletteSpecName` | Lux/Look/Look+PaletteInfo.swift:200-209 | `specName` is the numeric spec name of the priority |
| `PaletteInfo.Select` | Lux/Look/Look+PaletteInfo.swift:179-191 | `select` gives the dark colour for the dark scheme and the light one otherwise |
| `PaletteInfo.Semantic` | Lux/Look/Look+PaletteInfo.swift:146-177 | The dynamic colour resolves to the dark colour only for the dark style |
| `PaletteInfo.SemanticIsSelect` | Lux/Look/Look+PaletteInfo.swift:146-191 | Resolving `semantic` agrees with `select` of the matching scheme |
| `PaletteInfo.EncodeColor` | Lux/Look/Look+CodableHelpers.swift:64-80 | A colour encodes to its four components |
| `PaletteInfo.DecodeColor` | Lux/Look/Look+CodableHelpers.swift:64-80 | Decoding needs all four components |
| `PaletteInfo.DecodeEncodeColor` | Lux/Look/Look+CodableHelpers.swift:64-80 | A colour survives `CodableColor` |
| `PaletteInfo.EncodePalette` | Lux/Look/Look+PaletteInfo.swift:112-144 | The encoder writes `preferred` and one colour per slot, and nothing else |
| `PaletteInfo.DecodePalette` | Lux/Look/Look+PaletteInfo.swift:78-110 | The decoder requires `preferred` and every slot |
| `PaletteInfo.DecodedColors` | Lux/Look/Look+PaletteInfo.swift:78-110 | Each decoded slot is the decoding of that slot's key |
| `PaletteInfo.ColorsEqual` | Lux/Look/Look+PaletteInfo.swift:17-46 | Palettes that agree on every slot have equal colours |
| `PaletteInfo.EncodedColorsDecode` | Lux/Look/Look+PaletteInfo.swift:78-144 | Encoded slots decode, slot by slot, to their colours |
| `PaletteInfo.DecodeEncodedColors` | Lux/Look/Look+PaletteInfo.swift:78-144 | Encoded slots decode to the palette's colours |
| `PaletteInfo.DecodePaletteFields` | Lux/Look/Look+PaletteInfo.swift:78-144 | An object holding a palette's encoded fields decodes to that palette |
| `PaletteInfo.DecodeEncodePalette` | Lux/Look/Look+PaletteInfo.swift:78-144 | A palette survives encoding and decoding |
| `LookFonts.DefaultFonts` | Lux/Look/Look+Fonts.swift:13-15 | `Fonts()` has no preference, so its active font is the regular system font; its three faces are distinct system faces at the system font size |
| `LookFonts.FontsPriority` | Lux/Look/Look+Fonts.swift:27-30 | `priority` is `preferred`, or primary when nil |
| `LookFonts.Active` | Lux/Look/Look+Fonts.swift:16-25 | `active` is the font in the slot of the priority |
| `LookFonts.FontsSpecName` | Lux/Look/Look+Fonts.swift:85-95 | `specName` is the letter spec name of the priority |
| `LookFonts.SlotUIFont` | Lux/Look/Look+Fonts.swift:32-57 | Each per-layout font is the active face at that layout's text size |
| `LookFonts.SlotUIFontsShareFace` | Lux/Look/Look+Fonts.swift:32-57 | All per-layout fonts share one face and differ at most in size |
| `LookFonts.EncodeCodableFont` | Lux/Look/Look+CodableHelpers.swift:15-24 | A font encodes to its archived descriptor, size and name |
| `LookFonts.DecodeCodableFont` | Lux/Look/Look+CodableHelpers.swift:26-53 | Decoding needs all three keys and keeps the stored size |
| `LookFonts.DecodeEncodeCodableFont` | Lux/Look/Look+CodableHelpers.swift:15-53 | A font survives `CodableFont` |
| `LookFonts.EncodeFonts` | Lux/Look/Look+Fonts.swift:75-81 | The encoder writes exactly `preferred` and the three fonts, `preferred` as null when nil |
| `LookFonts.DecodeFonts` | Lux/Look/Look+Fonts.swift:64-73 | The decoder requires all four keys |
| `LookFonts.DecodeEncodeFonts` | Lux/Look/Look+Fonts.swift:59-81 | The fonts, `preferred` included, survive encoding and decoding |
| `Specs.EncodeWithParts` | Lux/Look/Look+Effects.swift:24-95 | The specification object has exactly one key per stored property |
| `Specs.EncodeSpecification` | Lux/Look/Look+Effects.swift:24-95 | The encoder nests the encoded palette and fonts |
| `Specs.DecodeSpecification` | Lux/Look/Look+Effects.swift:24-95 | The decoder requires every key |
| `Specs.WithEncodedEffects` | Lux/Look/Look+Effects.swift:24-95 | The effect values read back as they were written |
| `Specs.DecodeEncodedColor` | Lux/Look/Look+Effects.swift:24-95 | The palette of an encoded specification reads back |
| `Specs.DecodeEncodedFont` | Lux/Look/Look+Effects.swift:24-95 | The fonts of an encoded specification read back |
| `Specs.DecodeEncodeSpecification` | Lux/Look/Look+Effects.swift:24-95 | A specification survives encoding and decoding |
| `Looks.NewMeta` | Lux/Look/Look.swift:13-30 | New metadata has the given id and creation time, version 0 and nothing published |
| `Looks.EncodeMeta` | Lux/Look/Look.swift:13-30 | The encoder writes exactly the non-nil optional fields and the required ones |
| `Looks.DecodeMeta` | Lux/Look/Look.swift:13-30 | The decoder requires the creation id and the published version |
| `Looks.IfPresentTextOf` | Lux/Look/Look.swift:13-30 | An optional text reads back as absent or as the stored text |
| `Looks.IfPresentNumberOf` | Lux/Look/Look.swift:13-30 | An optional number reads back as absent or as the stored number |
| `Looks.EncodedTexts` | Lux/Look/Look.swift:13-30 | Every optional text field of encoded metadata reads back |
| `Looks.DecodeMetaFrom` | Lux/Look/Look.swift:13-30 | An object holding metadata's fields decodes to that metadata |
| `Looks.DecodeEncodeMeta` | Lux/Look/Look.swift:13-30 | Metadata survives encoding and decoding |
| `Looks.Published` | Lux/Look/Look.swift:269-271 | Publishing adds exactly one to the published version and changes nothing else |
| `Looks.NewData` | Lux/Look/Look.swift:34-45 | A new look is "Maxwell", with no preferred scheme, the given specifications and the default layout, surface, font mix and elevation |
| `Looks.SchemeOf` | Lux/Look/Look.swift:206-208 | `scheme` is the preferred scheme, else the system's |
| `Looks.Toggled` | Lux/Look/Look.swift:250-252 | Toggling prefers the opposite of the current scheme and changes nothing else |
| `Looks.ToggleTwice` | Lux/Look/Look.swift:250-252 | Each toggle flips the scheme, two give it back, and a preference is then set |
| `Looks.ResetDefaultsOf` | Lux/Look/Look.swift:260-265 | Resetting restores the four defaults and keeps everything else |
| `Looks.SpecOf` | Lux/Look/Look.swift:296-300 | The `spec` getter reads the specification of the current scheme |
| `Looks.WithSpec` | Lux/Look/Look.swift:301-310 | The `spec` setter writes only the current scheme's specification |
| `Looks.SpecSetGet` | Lux/Look/Look.swift:296-310 | Setting the `spec` keeps the scheme and reads back |
| `Looks.TraitOf` | Lux/Look/Look.swift:274-281 | The `trait` getter builds a trait from the defaults, the current spec's priorities and the current elevation |
| `Looks.TraitSetGet` | Lux/Look/Look.swift:274-292 | Setting a `trait` and reading it keeps layout, surface, priorities and font mix, and leaves the other scheme's specification alone |
| `Looks.WithTrait` | Lux/Look/Look.swift:285-291 | The `trait` setter; `Looks.TraitSetGet` states that the getter reads back what it wrote |
| `Looks.IsActiveColor` | Lux/Look/Look.swift:216-222 | A colour priority is active exactly when it is the current spec's, whatever scheme is asked about |
| `Looks.IsActiveFont` | Lux/Look/Look.swift:216-222 | A font priority is active exactly when it is the current spec's, whatever scheme is asked about |
| `Looks.EncodeLookWithParts` | Lux/Look/Look.swift:83-93 | The look object has exactly one key per encoded property |
| `Looks.EncodeLook` | Lux/Look/Look.swift:83-93 | The encoder nests the encoded metadata and both specifications |
| `Looks.DecodeLook` | Lux/Look/Look.swift:69-81 | The decoder requires every key and resets the font mix and elevation to their defaults |
| `Looks.Encoded` | Lux/Look/Look.swift:55-93 | The part of a look that encoding keeps: everything but the font mix and elevation, which come back as their defaults |
| `Looks.DecodeLookFrom` | Lux/Look/Look.swift:69-81 | An object holding a look's fields decodes to the encoded part of that look |
| `Looks.EncodedLookFields` | Lux/Look/Look.swift:83-93 | Each key of the look object holds what the encoder wrote for it |
| `Looks.DecodeEncodedLookParts` | Lux/Look/Look.swift:69-93 | Decodable parts give back the look's encoded part |
| `Looks.DecodeEncodeLook` | Lux/Look/Look.swift:55-93 | A look survives encoding up to the font mix and elevation |
| `Looks.DecodeLookText` | Lux/Look/Look.swift:55-81 | Text decodes to a look only through a parsed document |
| `Looks.DecodeLookTextOf` | Lux/Look/Look.swift:55-93 | A look's text decodes to its encoded part |
| `Looks.Clone` | Lux/Look/Look.swift:239-246 | A clone is the look's encoded part |
| `Looks.Instance` | Lux/Look/Look.swift:232-237 | A new instance is a clone with a fresh creation id and time |
| `Looks.Look.constructor` | Lux/Look/Look.swift:65-67 | A new look holds the new look data |
| `Looks.Look.FromData` | Lux/Look/Look.swift:69-81 | A decoded look holds the decoded data |
| `Looks.Look.ToggleScheme` | Lux/Look/Look.swift:250-252 | `toggleScheme` flips the current scheme |
| `Looks.Look.CurrentScheme` | Lux/Look/Look.swift:206-208 | `scheme` is the preferred scheme, else the system's |
| `Looks.Look.CurrentSpec` | Lux/Look/Look.swift:296-299 | The `spec` getter returns the specification of the scheme in force |
| `Looks.Look.CurrentTrait` | Lux/Look/Look.swift:275-284 | The `trait` getter holds the look's default layout, surface and font mix and the priorities of the specification in force |
| `Looks.Look.PreferredSchemeFromSystem` | Lux/Look/Look.swift:254-256 | After it the scheme follows the system whatever the system's scheme |
| `Looks.Look.ResetDefaults` | Lux/Look/Look.swift:260-265 | `resetDefaults` restores the defaults |
| `Looks.Look.IncreasePublishedVersion` | Lux/Look/Look.swift:269-271 | The data changes only by one more published version |
| `Looks.Look.SetSpec` | Lux/Look/Look.swift:301-310 | The `spec` setter, after which the getter returns the new specification |
| `Looks.Look.SetTrait` | Lux/Look/Look.swift:283-292 | The `trait` setter |
| `LookCurrent.CurrentState.constructor` | Lux/Look/Look+Current.swift:12-15 | The state starts with a base look and no active one |
| `LookCurrent.CurrentState.Current` | Lux/Look/Look+Current.swift:25-27 | `current` is `active` when set, otherwise `base` |
| `LookCurrent.CurrentState.SetActive` | Lux/Look/Look+Current.swift:21-23 | `set(active:)` makes `current` that look and leaves `base` alone |
| `LookCurrent.SetActiveTwice` | Lux/Look/Look+Current.swift:21-23 | The last `set(active:)` wins |
| `Traits.SetPadding` | Lux/Trait/Trait.swift:17-25 | Assigning the padding edges also sets the margin edges to them |
| `Traits.MakeTrait` | Lux/Trait/Trait.swift:71-91 | `init` stores each argument in its field, the spec in both spec fields, and the defaults everywhere else |
| `Traits.TraitEqIgnoresExactlyUnhashed` | Lux/Trait/Trait.swift:94-111 | Two traits are `==` exactly when they differ only in the elevation, `surfaceIgnoresSafeArea`, the multipliers and the edges |
| `Traits.HashInputOf` | Lux/Trait/Trait.swift:99-111 | The eleven properties `hash(into:)` combines; `Traits.TraitEqIgnoresExactlyUnhashed` states which ones are left out |
| `Traits.TraitEq` | Lux/Trait/Trait.swift:94-97 | `==` compares hashes; `Traits.TraitEqIgnoresExactlyUnhashed` states exactly when it holds |
| `Tweaks.TweakFoldConcat` | Lux/Trait/Trait+Operators.swift:18-22 | Folding two lists of tweaks is folding the first, then the second |
| `Tweaks.TweakFold` | Lux/Trait/Trait+Operators.swift:18-22 | `tweak(_:...)` applies the tweaks in order; `Tweaks.TweakFoldConcat` states that the list splits at any point |
| `Tweaks.TweakFoldSnoc` | Lux/Trait/Trait+Operators.swift:18-22 | One more tweak is applied after the others |
| `Tweaks.TweakFoldOfTwo` | Lux/Trait/Trait+Operators.swift:18-22 | Two tweaks apply left to right |
| `Tweaks.TweakFoldOfThree` | Lux/Trait/Trait+Operators.swift:18-22 | Three tweaks apply left to right |
| `Tweaks.ApplyFontRotation` | Lux/Style/Lux+Tweaks.swift:256-265 | `complementaryFont` rotates the font priority |
| `Tweaks.ApplyLayoutRotation` | Lux/Style/Lux+Tweaks.swift:235-254 | `complementaryLayout` rotates the layout |
| `Tweaks.ApplySurfaceRotation` | Lux/Style/Lux+Tweaks.swift:222-233 | `complementarySurface` rotates the surface and changes nothing else |
| `Tweaks.ApplyColorRotation` | Lux/Style/Lux+Tweaks.swift:267-276 | `complementaryColor` rotates the colour priority |
| `Tweaks.ApplyComplementary` | Lux/Style/Lux+Tweaks.swift:278-279 | `complementary` rotates the font, then the layout, then the colour |
| `Tweaks.ComplementaryIsFold` | Lux/Style/Lux+Tweaks.swift:278-279 | `complementary` is the tweak fold of the three rotations |
| `Tweaks.UnchangedExceptNothingIsEqual` | Lux/Trait/Trait.swift:49-69 | The trait's fields cover it: agreeing on all of them is equality |
| `Tweaks.FontEditsTouchOnlyFontPriority` | Lux/Style/Lux+Tweaks.swift:130-139 | Font tweaks change only the font priority |
| `Tweaks.ColorEditsTouchOnlyColor` | Lux/Style/Lux+Tweaks.swift:141-154 | Colour tweaks change only the colour priority and override, and the rotation only the priority |
| `Tweaks.SurfaceEditsTouchOnlySurface` | Lux/Style/Lux+Tweaks.swift:156-220 | Surface tweaks, `activeColor` and `contrastColor` change only the surface |
| `Tweaks.LayoutEditsTouchOnlyLayout` | Lux/Style/Lux+Tweaks.swift:174-204 | Layout tweaks change only the layout |
| `Tweaks.ComplementTouchesFontLayoutColor` | Lux/Style/Lux+Tweaks.swift:278-279 | `complementary` changes only the font priority, layout and colour priority |
| `Tweaks.ElevationEditsTouchOnlyElevation` | Lux/Style/Lux+Tweaks.swift:281-332 | Elevation tweaks change only the elevation |
| `Tweaks.LayoutMultiplierEditsTouchOnlyIt` | Lux/Style/Lux+Tweaks.swift:382-400 | Layout multiplier tweaks change only that multiplier |
| `Tweaks.PaddingMultiplierEditsTouchOnlyIt` | Lux/Style/Lux+Tweaks.swift:342-360 | Padding tweaks change only that multiplier |
| `Tweaks.CornerRadiusMultiplierEditsTouchOnlyIt` | Lux/Style/Lux+Tweaks.swift:362-380 | Corner radius tweaks change only that multiplier |
| `Tweaks.EdgesEditsTouchOnlyEdges` | Lux/Style/Lux+Tweaks.swift:402-427 | Edge tweaks change only the edges |
| `Tweaks.OtherEditsTouchOnlyTheirField` | Lux/Style/Lux+Tweaks.swift:128-129 | `none`, the font mix, canvas and scheme tweaks change only their own field, and `none` changes nothing |
| `Tweaks.ApplyChangesOnlyTouched` | Lux/Style/Lux+Tweaks.swift:125-441 | Every tweak leaves every field outside those of its kind as it was |
| `Tweaks.Apply` | Lux/Style/Lux+Tweaks.swift:125-441 | `Tweak.apply(to:)`; `Tweaks.ApplyChangesOnlyTouched`, `Tweaks.SettersIdempotent` and the per-kind `...EditsTouchOnly...` lemmas state what each tweak changes |
| `Tweaks.SettersIdempotent` | Lux/Style/Lux+Tweaks.swift:125-441 | Every tweak that is not a rotation gives the same trait when applied twice |
| `Tweaks.SurfaceRotationCycle` | Lux/Style/Lux+Tweaks.swift:222-233 | The surface rotation is one cycle of length four |
| `Tweaks.PriorityRotationCycle` | Lux/Style/Lux+Tweaks.swift:256-276 | The priority rotation is one cycle of length three |
| `Tweaks.LayoutRotationSettles` | Lux/Style/Lux+Tweaks.swift:235-254 | The layout rotation moves exactly the named layouts, reaches body or callout within three steps, and then swaps them |
| `Tweaks.NormalOnCanvas` | Lux/Style/Lux+Tweaks.swift:317-319 | `elevationNormalOnCanvas` resets the elevation on a canvas and keeps it elsewhere |
| `Tweaks.InputSurfaceElevation` | Lux/Style/Lux+Tweaks.swift:321-332 | `elevationInputSurface` picks normal, above, above or below by surface and keeps the surface |
| `Tweaks.EdgeTweaksCoupleMargin` | Lux/Style/Lux+Tweaks.swift:402-427 | Edge tweaks set the padding edges, and the margin follows them |
| `Tweaks.SchemeTweaks` | Lux/Style/Lux+Tweaks.swift:429-439 | Scheme tweaks prefer light, dark or no scheme |
| `TraitOperators.Tweak` | Lux/Trait/Trait+Operators.swift:18-22 | The `tweak(_:)` loop yields the left-to-right fold of its tweaks |
| `TraitOperators.TweakFoldShort` | Lux/Trait/Trait+Operators.swift:14-22 | No tweaks leave the trait as it is, and one tweak is `_tweak(as:)` |
| `TraitOperators.PreferredColor` | Lux/Trait/Trait+Operators.swift:26-31 | `preferred(color:)` sets only the colour override, nil included |
| `TraitOperators.PreferredFont` | Lux/Trait/Trait+Operators.swift:33-37 | `preferred(font:)` sets only the font override |
| `TraitOperators.PreferredSurface` | Lux/Trait/Trait+Operators.swift:39-43 | `preferred(surface:)` sets only the surface |
| `TraitOperators.PreferredLayout` | Lux/Trait/Trait+Operators.swift:45-49 | `preferred(layout:)` sets only the layout |
| `TraitOperators.Multiply` | Lux/Trait/Trait+Operators.swift:100-104 | `multiply` stores the value in the chosen multiplier and changes nothing else |
| `TraitOperators.SurfaceStepsShift` | Lux/Trait/Trait+Operators.swift:71-78 | Four more surface rotations change nothing |
| `TraitOperators.SurfaceStepsPeriod` | Lux/Trait/Trait+Operators.swift:71-78 | n surface rotations are n mod 4 of them |
| `TraitOperators.PriorityStepsShift` | Lux/Trait/Trait+Operators.swift:80-96 | Three more priority rotations change nothing |
| `TraitOperators.PriorityStepsPeriod` | Lux/Trait/Trait+Operators.swift:80-96 | n priority rotations are n mod 3 of them |
| `TraitOperators.LayoutStep` | Lux/Trait/Trait+Operators.swift:62-69 | One more layout rotation is applied after the others |
| `TraitOperators.LayoutStepsAlternate` | Lux/Trait/Trait+Operators.swift:62-69 | From the third rotation on, the layout alternates with period two |
| `TraitOperators.ComplementarySurfaceLevel` | Lux/Trait/Trait+Operators.swift:71-78 | The loop rotates the surface level mod 4 times and changes nothing else |
| `TraitOperators.ComplementaryFontLevel` | Lux/Trait/Trait+Operators.swift:80-87 | The loop rotates the font priority level mod 3 times and changes nothing else |
| `TraitOperators.ComplementaryColorLevel` | Lux/Trait/Trait+Operators.swift:89-96 | The loop rotates the colour priority level mod 3 times and changes nothing else |
| `TraitOperators.ComplementaryLayoutLevel` | Lux/Trait/Trait+Operators.swift:62-69 | The loop rotates the layout level times and changes nothing else |
| `TraitOperators.ComplementaryRound` | Lux/Trait/Trait+Operators.swift:53-60 | One round rotates font, layout, colour and surface once each |
| `TraitOperators.ComplementaryLevel` | Lux/Trait/Trait+Operators.swift:53-60 | The loop rotates the priorities level mod 3 times, the surface level mod 4 times and the layout level times |
| `TraitProperties.ColorScheme` | Lux/Trait/Trait+Properties.swift:15-17 | `colorScheme` is the trait's preferred scheme, else the current look's |
| `TraitProperties.Spec` | Lux/Trait/Trait+Properties.swift:19-36 | `spec` is the trait's own specification for its scheme, else the current look's for that scheme |
| `TraitProperties.SystemSpec` | Lux/Trait/Trait+Properties.swift:19-28 | `systemSpec` is the current look's specification for the scheme the trait resolves to |
| `TraitProperties.PreferredSpec` | Lux/Trait/Trait+Properties.swift:30-32 | The trait's own specification for its resolved scheme; `TraitProperties.Spec` states that it wins over the system one |
| `TraitProperties.LookTraitResolvesToLook` | Lux/Look/Look.swift:274-281 | A look's trait resolves to the look's scheme and specification |
| `TraitProperties.MakeTraitSchemeless` | Lux/Trait/Trait.swift:71-91 | A look's trait has no preferred scheme |
| `TraitProperties.LayoutDisplayNameBySlot` | Lux/Trait/Trait+Properties.swift:101-156 | The layout's display name is its size slot's name, and exactly the unknown layouts have no slot |
| `TraitProperties.SlotDisplayNameInjective` | Lux/Xtensions/Extensions.swift:144-165 | Each size slot has its own name, never "Undefined Trait" |
| `TraitProperties.LayoutDisplayNameIffSlot` | Lux/Xtensions/Extensions.swift:144-165 | Two layouts share a display name exactly when they share a size slot |
| `TraitProperties.SpecNameShort` | Lux/Trait/Trait+Properties.swift:42-47 | The short name is the surface name, "-", the font letter and, off canvas and normal, the colour digit |
| `TraitProperties.SpecNameShortIff` | Lux/Trait/Trait+Properties.swift:42-47 | Equal short names mean equal surface and font priority, and equal colour priority where it is shown |
| `TraitProperties.SpecName` | Lux/Trait/Trait+Properties.swift:38-40 | `specName` is the layout name, a space and the short name |
| `TraitProperties.SpecNameEndsWithShort` | Lux/Trait/Trait+Properties.swift:38-47 | The full name splits back into the layout name and the short name |
| `TraitProperties.SurfaceColor` | Lux/Trait/Trait+Properties.swift:51-70 | The colour override wins, a clear canvas is clear, and otherwise the palette paints the surface |
| `TraitProperties.ForegroundColor` | Lux/Trait/Trait+Properties.swift:72-91 | The colour override wins, and otherwise the palette paints the foreground |
| `TraitProperties.ColorsIgnorePriorityOffAccent` | Lux/Trait/Trait+Properties.swift:51-91 | On canvas and normal surfaces neither colour depends on the colour priority |
| `TraitProperties.FontType` | Lux/Trait/Trait+Properties.swift:101-156 | Unknown layouts get the system font, and the others get the slot's font at their text size |
| `TraitProperties.FontTypeIsSpecSlotFont` | Lux/Trait/Trait+Properties.swift:101-156 | With `byPriority` and the spec's own priority, the font is the spec's per-layout font |
| `TraitProperties.MixedIgnoresFontPriority` | Lux/Trait/Trait+Properties.swift:101-156 | With `mixed` the font does not depend on the font priority |
| `TraitProperties.Typography` | Lux/Trait/Trait+Properties.swift:93-99 | The font override wins over the font type |
| `TraitProperties.OpacitiesOrdered` | Lux/Trait/Trait+Properties.swift:186-206 | 0 < tertiary < secondary < primary < 1, and the double hairline is twice the hairline |
| `TraitProperties.ParagraphInsets` | Lux/Trait/Trait+Properties.swift:210-244 | Each paragraph padding has half spacing at the sides and a top and bottom that depend on its kind |
| `TraitProperties.ParagraphOfLayout` | Lux/Trait/Trait+Properties.swift:248-261 | Titles and callout get the header padding, footnote the footer, subheadline and captions the caption, and the rest the body |
| `TraitProperties.ParagraphOf` | Lux/Trait/Trait+Properties.swift:248-261 | The paragraph padding kind of a layout; `TraitProperties.ParagraphOfLayout` states which layouts get which |
| `TraitProperties.ParagraphInsetsInjective` | Lux/Trait/Trait+Properties.swift:210-244 | With a positive spacing the four paddings differ |
| `Features.Expansion` | Lux/Style/Lux+Features.swift:136-320 | Exactly the six composites expand |
| `Features.ExpansionsArePrimitive` | Lux/Style/Lux+Features.swift:136-320 | Composites expand to at least two primitive features |
| `Features.MaxRank` | Lux/Style/Lux+Features.swift:114-353 | No feature in a list is more than one level from the primitives |
| `Features.PrimitivesHaveRankZero` | Lux/Style/Lux+Features.swift:114-353 | A list of primitives has rank zero |
| `Styles.CompactIsLargeThenHalfPadding` | Lux/API/FX+Styles.swift:117-136 | `icon`, `button` and `textfield` are their large variants followed by half padding, with the same features |
| `Styles.CompactPadding` | Lux/API/FX+Styles.swift:117-136 | Every compact element ends with half padding |
| `Styles.PanelTweaks` | Lux/API/FX+Styles.swift:45-55 | The panel's tweaks are the normal elevation and zero padding |
| `Styles.LevelUnpadded` | Lux/API/FX+Styles.swift:45-55 | The panel's two tweaks set the elevation and padding and nothing else |
| `Styles.PanelTrait` | Lux/API/FX+Styles.swift:45-55 | A panel leaves the trait at normal elevation with zero padding, everything else kept |
| `Styles.CardTrait` | Lux/API/FX+Styles.swift:57-65 | A card and a bordered panel leave the same trait as a panel |
| `Styles.PresetLists` | Lux/API/FX+Styles.swift:19-201 | How the presets share their lists: `none` is empty, `card` and `panelWithBorder` add one feature to the panel, `buttonLarge` takes `onButton`'s tweaks, `bar` composes its background twice, and `paragraphBlock` concatenates its parts |
| `LuxCore.WrapAll` | Lux/Style/Lux+Features.swift:119-351 | Primitive features add one modifier each |
| `LuxCore.FeaturesStep` | Lux/Core/Lux+Protocols.swift:133-137 | Rendering one more feature extends the view and both logs |
| `LuxCore.FeaturesViewDepth` | Lux/Style/Lux+Features.swift:114-353 | Rendering features adds exactly their weight in modifiers |
| `LuxCore.PrimitivesViewIsWrapAll` | Lux/Style/Lux+Features.swift:119-351 | Primitives rendered one by one wrap the view once each, in order |
| `LuxCore.PrimitiveLogsItself` | Lux/Core/Lux+Config.swift:50-55 | A primitive logs only itself |
| `LuxCore.PrimitivesInit` | Lux/Style/Lux+Features.swift:114-353 | Every feature but the last of a list of primitives is primitive |
| `LuxCore.PrimitivesLogThemselves` | Lux/Core/Lux+Protocols.swift:133-137 | `feature(...)` on primitives logs exactly them |
| `LuxCore.PrimitivesRenderUnlogged` | Lux/Style/Lux+Features.swift:107-111 | `Style.render` of primitives logs nothing |
| `LuxCore.FeatureLogsLength` | Lux/Core/Lux+Protocols.swift:133-137 | `feature(...)` logs each feature plus what rendering them logs |
| `LuxCore.LayoutCompositeLogs` | Lux/Style/Lux+Features.swift:136-169 | `paragraph`, `controlLayout` and `backgroundSurfaceWithForegroundColor` log themselves, then their parts |
| `LuxCore.FrameCompositeLogs` | Lux/Style/Lux+Features.swift:231-320 | The frame composites log themselves, then their parts |
| `LuxCore.NoFeatureRendersNothing` | Lux/Style/Lux+Features.swift:117-118 | `none` is logged and leaves the view as it is |
| `LuxCore.StyledKeepsTweakLog` | Lux/Style/Lux+Features.swift:107-111 | A style never logs a tweak, changes the trait only through its tweaks, and adds its features' weight to the view |
| `LuxCore.Styled` | Lux/Style/Lux+Features.swift:107-111 | `Style.render(to:)`; `LuxCore.StyledKeepsTweakLog` and `LuxCore.StyledPrimitives` state its effect |
| `LuxCore.StyledPrimitives` | Lux/Style/Lux+Features.swift:107-111 | A style of primitive features logs nothing and adds one modifier per feature |
| `LuxCore.ButtonIsPrimitive` | Lux/API/FX+Styles.swift:90-101 | A button's five features are all primitive |
| `LuxCore.Lux.constructor` | Lux/Core/Lux.swift:35-38 | A new `Lux` has the given view and trait and empty logs |
| `LuxCore.Lux.WithUIView` | Lux/Core/Lux.swift:40-44 | The UIKit initialiser starts from an empty placeholder view |
| `LuxCore.Lux.AppendTweak` | Lux/Core/Lux.swift:48-50 | `append(tweak:)` adds the tweak at the end of the log and changes nothing else |
| `LuxCore.Lux.AppendFeature` | Lux/Core/Lux.swift:52-54 | `append(feature:)` adds the feature at the end of the log and changes nothing else |
| `LuxCore.Lux.SetView` | Lux/Core/Lux.swift:74-78 | `setView` replaces only the view |
| `LuxCore.Lux.ViewBlock` | Lux/Core/Lux.swift:80-84 | `viewBlock` replaces the view with the block's result |
| `LuxCore.Lux.ViewMutation` | Lux/Core/Lux+Protocols.swift:101-107 | `viewMutation` replaces only the view, with the block's result |
| `LuxCore.Lux.TraitMutation` | Lux/Core/Lux+Protocols.swift:109-115 | `traitMutation` replaces only the trait, with the block's result |
| `LuxCore.Lux.SetTrait` | Lux/Core/Lux+Config.swift:35-41 | `trait(_:)` replaces the trait wholesale |
| `LuxCore.Lux.RenderTweak` | Lux/Style/Lux+Tweaks.swift:119-123 | Rendering a tweak applies it to the trait without logging it |
| `LuxCore.Lux.TweakAs` | Lux/Core/Lux+Config.swift:43-48 | `_tweak(as:)` logs the tweak, then applies it |
| `LuxCore.Lux.TweakEach` | Lux/Core/Lux+Protocols.swift:121-125 | `tweak(...)` logs every tweak and folds them into the trait, left to right |
| `LuxCore.Lux.TweakBlock` | Lux/Core/Lux+Config.swift:57-63 | `_tweakBlock` changes only the trait |
| `LuxCore.Lux.RenderBlock` | Lux/Core/Lux+Config.swift:65-71 | `_renderBlock` replaces the view only when the block returns one |
| `LuxCore.Lux.RenderFeature` | Lux/Style/Lux+Features.swift:114-353 | Rendering a feature leaves the trait, changes the view as the feature does, and logs only a composite's parts |
| `LuxCore.Lux.RenderComposite` | Lux/Style/Lux+Features.swift:136-320 | A composite wraps the view in its parts, in order, and logs them |
| `LuxCore.Lux.FeatureAs` | Lux/Core/Lux+Config.swift:50-55 | `_feature(as:)` logs the feature, then renders it |
| `LuxCore.Lux.FeatureEach` | Lux/Core/Lux+Protocols.swift:133-137 | `feature(...)` renders and logs every feature, left to right |
| `LuxCore.Lux.RenderTweaks` | Lux/Style/Lux+Features.swift:109-109 | The first loop of `Style.render` folds the tweaks into the trait, unlogged |
| `LuxCore.Lux.RenderFeatures` | Lux/Style/Lux+Features.swift:110-110 | The second loop of `Style.render` renders the features in order, unlogged |
| `LuxCore.Lux.RenderStyle` | Lux/Style/Lux+Features.swift:107-111 | `Style.render` applies every tweak, then renders every feature |
| `LuxCore.Lux.StyleAs` | Lux/Core/Lux+Config.swift:75-79 | `_style(as:)` renders the style without logging it |
| `LuxCore.Lux.StyleEach` | Lux/Core/Lux+Config.swift:81-85 | `style(...)` renders each style in order |
| `LuxCore.Lux.If` | Lux/Core/Lux+Protocols.swift:143-151 | `if` runs the block only when the condition holds, and keeps its view only when it returns one |
| `LuxCore.Lux.Unless` | Lux/Core/Lux+Protocols.swift:153-161 | `unless` runs the block only when the condition fails |
| `LuxCore.Lux.IfIdiom` | Lux/Core/Lux+Protocols.swift:163-171 | The block runs only on the given idiom |
| `LuxCore.Lux.UnlessIdiom` | Lux/Core/Lux+Protocols.swift:173-181 | The block runs only off the given idiom |
| `Photons.DataTypeRaw` | Lux/Stream/Stream+Photon.swift:10-13 | The string tag is 1 and the image tag is 2 |
| `Photons.DataTypeFromRaw` | Lux/Stream/Stream+Photon.swift:10-13 | Exactly 1 and 2 are tags, and each reads back as itself |
| `Photons.LookPayload` | Lux/Stream/Stream+Photon.swift:32-38 | The getter gives the decoded look, or nil when the payload does not decode |
| `Photons.WithLookPayload` | Lux/Stream/Stream+Photon.swift:39-41 | The setter writes only the payload, with the serialised look or null |
| `Photons.NewPhoton` | Lux/Stream/Stream+Photon.swift:24-28 | `init` keeps the server name, sets the role to apply-look, leaves `metaId` nil and serialises the look |
| `Photons.NewPhotonPayload` | Lux/Stream/Stream+Photon.swift:24-38 | A new photon's payload decodes to the encoded part of its look |
| `Photons.LookPayloadSetGet` | Lux/Stream/Stream+Photon.swift:32-41 | Setting the payload and reading it gives the look's encoded part, or nil |
| `Photons.EncodePhoton` | Lux/Stream/Stream+Photon.swift:9-22 | The encoder writes the server name, role and payload, and the `metaId` only when present |
| `Photons.DecodePhoton` | Lux/Stream/Stream+Photon.swift:9-22 | The decoder requires the server name, the payload and a `role` key holding "applyLook" |
| `Photons.DecodeEncodePhoton` | Lux/Stream/Stream+Photon.swift:9-22 | A photon survives encoding and decoding |
| `Photons.DecodePhotonText` | Lux/Stream/LuxStream.swift:216-216 | Text decodes to a photon only through a parsed document |
| `Photons.DecodePhotonTextOf` | Lux/Stream/LuxStream.swift:216-216 | A photon's text decodes back to it |
| `MultiPeers.EncodePacket` | Lux/MultiPeer/MultiPeer.swift:12-15 | A packet encodes to its data and type |
| `MultiPeers.DecodePacket` | Lux/MultiPeer/MultiPeer.swift:12-15 | The decoder requires the data and type |
| `MultiPeers.DecodeEncodePacket` | Lux/MultiPeer/MultiPeer.swift:12-15 | A packet survives encoding and decoding |
| `MultiPeers.PacketFromBytes` | Lux/MultiPeer/MultiPeer.swift:271-284 | Bytes decode to a packet only through UTF-8 text |
| `MultiPeers.PacketBytesRoundTrip` | Lux/MultiPeer/MultiPeer.swift:180-188 | A packet sent as bytes is received as itself |
| `MultiPeers.WithoutPeer` | Lux/MultiPeer/MultiPeer.swift:237-237 | Removing a peer keeps exactly the entries with another id |
| `MultiPeers.WithoutPeerAppend` | Lux/MultiPeer/MultiPeer.swift:237-237 | Removal distributes over concatenation, so the order is kept |
| `MultiPeers.WithoutAbsentPeer` | Lux/MultiPeer/MultiPeer.swift:237-237 | Removing an absent peer changes nothing |
| `MultiPeers.WithFirstState` | Lux/MultiPeer/MultiPeer.swift:257-257 | A state change keeps the roster's ids and changes at most the matching entry's state |
| `MultiPeers.ConnectedEntries` | Lux/MultiPeer/MultiPeer.swift:262-262 | The connected roster is the session's peers, each connected |
| `MultiPeers.DisplayNames` | Lux/MultiPeer/MultiPeer.swift:266-266 | The reported names are the session peers' display names, in order |
| `MultiPeers.FoundThenLost` | Lux/MultiPeer/MultiPeer.swift:223-238 | Losing a peer just found restores the roster |
| `MultiPeers.ConnectedRosterMatchesSession` | Lux/MultiPeer/MultiPeer.swift:262-262 | A roster entry is connected and in the session exactly when it is in the connected roster |
| `MultiPeers.MultiPeer.constructor` | Lux/MultiPeer/MultiPeer.swift:43-47 | A new transport has empty rosters and has done nothing |
| `MultiPeers.MultiPeer.Initialize` | Lux/MultiPeer/MultiPeer.swift:84-99 | `initialize` stores the service type and device name and nothing else |
| `MultiPeers.MultiPeer.StartInviting` | Lux/MultiPeer/MultiPeer.swift:109-111 | Starts browsing only |
| `MultiPeers.MultiPeer.StartAccepting` | Lux/MultiPeer/MultiPeer.swift:114-116 | Starts advertising only |
| `MultiPeers.MultiPeer.AutoConnect` | Lux/MultiPeer/MultiPeer.swift:119-122 | Starts browsing and advertising |
| `MultiPeers.MultiPeer.StopInviting` | Lux/MultiPeer/MultiPeer.swift:125-127 | Stops browsing only |
| `MultiPeers.MultiPeer.StopAccepting` | Lux/MultiPeer/MultiPeer.swift:130-132 | Stops advertising only |
| `MultiPeers.MultiPeer.StopSearching` | Lux/MultiPeer/MultiPeer.swift:135-138 | Stops advertising, then browsing |
| `MultiPeers.MultiPeer.Disconnect` | Lux/MultiPeer/MultiPeer.swift:141-145 | `disconnect` ends the session and empties both rosters, so the transport is no longer connected |
| `MultiPeers.MultiPeer.IsConnected` | Lux/MultiPeer/MultiPeer.swift:154-156 | Connected exactly when some peer is; `MultiPeers.MultiPeer.Disconnect` and `MultiPeers.MultiPeer.SendData` state its use |
| `MultiPeers.MultiPeer.End` | Lux/MultiPeer/MultiPeer.swift:148-151 | `end` stops searching, then disconnects |
| `MultiPeers.MultiPeer.SendData` | Lux/MultiPeer/MultiPeer.swift:180-193 | Sends one packet to the session when connected, and nothing otherwise |
| `MultiPeers.MultiPeer.SendObject` | Lux/MultiPeer/MultiPeer.swift:163-173 | Sends the object's UTF-8 text as one packet when connected, and nothing otherwise |
| `MultiPeers.MultiPeer.ReceivedInvitation` | Lux/MultiPeer/MultiPeer.swift:207-211 | Every invitation is accepted |
| `MultiPeers.MultiPeer.FoundPeer` | Lux/MultiPeer/MultiPeer.swift:223-230 | A found peer is appended once, not connected, and invited |
| `MultiPeers.MultiPeer.LostPeer` | Lux/MultiPeer/MultiPeer.swift:233-238 | A lost peer's entries are removed and the rest kept in order |
| `MultiPeers.MultiPeer.PeerChangedState` | Lux/MultiPeer/MultiPeer.swift:250-268 | A peer that connects leaves the available roster, another state is recorded on its entry, and the connected roster becomes the session's |
| `MultiPeers.MultiPeer.ReceivedData` | Lux/MultiPeer/MultiPeer.swift:271-285 | Data is delivered exactly when it decodes as a packet |
| `LookStreams.StreamNameOfLux` | Lux/Stream/LuxStream.swift:30-32 | The configurations named "Lux" stream as "lux" |
| `LookStreams.StreamGlobals.constructor` | Lux/Stream/Look+LuxStream.swift:12-13 | No stream and no observer at first |
| `LookStreams.StreamGlobals.Valid` | Lux/Stream/Look+LuxStream.swift:12-13 | The global stream, when there is one, keeps the stream invariant |
| `LookStreams.StreamGlobals.Stream` | Lux/Stream/Look+LuxStream.swift:15-18 | `stream()` creates a stream only when there is none, and otherwise returns the same one |
| `LookStreams.StreamGlobals.DisconnectStream` | Lux/Stream/Look+LuxStream.swift:20-26 | Disconnects the stream and clears it and the observer |
| `LookStreams.StreamGlobals.StreamingTo` | Lux/Stream/Look+LuxStream.swift:30-38 | Ends with a fresh stream that streams to the server, connected once |
| `LookStreams.StreamGlobals.TuningFrom` | Lux/Stream/Look+LuxStream.swift:40-50 | Ends with a fresh stream that tunes from the server, connected once, with the observer installed |
| `LookStreams.StreamGlobals.TunedLookChanged` | Lux/Stream/Look+LuxStream.swift:51-55 | The observer makes the tuned look active only when there is one |
| `Streams.ConfigHashEqual` | Lux/Stream/LuxStream.swift:26-28 | Two configurations hash alike exactly when they agree on `shouldConnect`, role and name |
| `Streams.StreamName` | Lux/Stream/LuxStream.swift:30-32 | The stream name has at most 13 characters, all lower-case and alphanumeric |
| `Streams.StreamNameOfPlainName` | Lux/Stream/LuxStream.swift:30-32 | A short lower-case alphanumeric name is its own stream name |
| `Streams.ServiceType` | Lux/Stream/LuxStream.swift:87-89 | The service type is "01" followed by the stream name, at most 15 characters |
| `Streams.ServerNamePredicates` | Lux/Stream/LuxStream.swift:259-265 | `needsSeverName` and `serverNameIsSet` are never both true, and either needs the tuning role |
| `Streams.NeedsServerName` | Lux/Stream/LuxStream.swift:259-261 | `needsSeverName`; `Streams.ServerNamePredicates` states how it relates to `serverNameIsSet` |
| `Streams.ServerNameIsSet` | Lux/Stream/LuxStream.swift:263-265 | `serverNameIsSet`; `Streams.ServerNamePredicates` states it |
| `Streams.ConfigHash` | Lux/Stream/LuxStream.swift:26-28 | `configHash`; `Streams.ConfigHashEqual` states which fields it tells apart |
| `Streams.Icon` | Lux/Stream/LuxStream.swift:237-246 | `icon` is a non-empty symbol name; `Streams.IconDistinguishesRole` states that it tells the roles apart |
| `Streams.IconDistinguishesRole` | Lux/Stream/LuxStream.swift:237-246 | Two configurations get the same icon exactly when they have the same role |
| `Streams.StreamServerName` | Lux/Stream/LuxStream.swift:159-161 | The server name, or "LUX" when none is set |
| `Streams.PhotonPacketRoundTrip` | Lux/Stream/LuxStream.swift:174-188 | A photon sent as a string packet is received as itself |
| `Streams.LuxStream.constructor` | Lux/Stream/LuxStream.swift:57-79 | A new stream is disconnected, with the default configuration and no transport |
| `Streams.LuxStream.Valid` | Lux/Stream/LuxStream.swift:101-139 | Outside a method the connected configuration is nil, because `connect()` clears it right after `connectIntent` sets it; every method keeps this |
| `Streams.LuxStream.IsConnected` | Lux/Stream/LuxStream.swift:271-273 | `isConnected` is the connected status; `Streams.LuxStream.UpdateStatus` states when it holds |
| `Streams.LuxStream.IsDisconnected` | Lux/Stream/LuxStream.swift:267-269 | `isDisconnected` holds exactly when the stream is neither connected nor connecting |
| `Streams.LuxStream.HasPreferredLook` | Lux/Stream/LuxStream.swift:255-257 | `hasPreferredLook`; `Streams.LuxStream.StreamingLook` states that it decides between the preferred and the current look |
| `Streams.LuxStream.SetStatus` | Lux/Stream/LuxStream.swift:57-62 | Setting the status also sets its text |
| `Streams.LuxStream.StreamingLook` | Lux/Stream/LuxStream.swift:251-253 | The preferred look when `hasPreferredLook` holds, else the current one |
| `Streams.LuxStream.DisconnectNow` | Lux/Stream/LuxStream.swift:133-139 | Drops the transport, connected configuration and tuned look and reports disconnected |
| `Streams.LuxStream.Connect` | Lux/Stream/LuxStream.swift:123-131 | Disconnects, then starts a fresh transport named by the stream name, browsing and advertising |
| `Streams.LuxStream.Stream` | Lux/Stream/LuxStream.swift:174-188 | Sends the photon once, only when a transport exists and is connected and the role is streaming; the transport's rosters, service type and device name are left alone |
| `Streams.LuxStream.BroadcastLook` | Lux/Stream/LuxStream.swift:165-170 | Sends the preferred or current look to the server name under the same guards, with the same frame on the transport |
| `Streams.LuxStream.ConnectIntent` | Lux/Stream/LuxStream.swift:101-117 | The hash guard never returns early: the old transport is disconnected, a fresh one browses and advertises under the stream name, the stream is connecting with no connected configuration and no tuned look, and the look observer follows the role |
| `Streams.LuxStream.CommitConnection` | Lux/Stream/LuxStream.swift:93-99 | Without `shouldConnect` the stream is disconnected with no transport; with it a fresh transport always starts connecting |
| `Streams.LuxStream.SetConfig` | Lux/Stream/LuxStream.swift:73-77 | Assigning the configuration commits it: disconnected without `shouldConnect`, and otherwise always a fresh connection attempt |
| `Streams.LuxStream.UpdateStatus` | Lux/Stream/LuxStream.swift:119-121 | Connected exactly when `shouldConnect` holds and the transport is connected, and never connecting |
| `Streams.LuxStream.Tune` | Lux/Stream/LuxStream.swift:190-203 | Only a tuning stream whose server name matches takes the photon's look, nil when the payload does not decode |
| `Streams.LuxStream.DidReceive` | Lux/Stream/LuxStream.swift:207-229 | The status and its text are recomputed first, only a string packet holding a photon is tuned (to a fresh look), and the configuration, transport, observer and connection count stay |
| `Streams.LuxStream.ConnectedDevicesChanged` | Lux/Stream/LuxStream.swift:231-234 | The names are replaced and the status and its text recomputed; the tuned look, observer and connection count stay |
| `Streams.LuxStream.CurrentLookChanged` | Lux/Stream/LuxStream.swift:148-155 | While the stream observes the look and its transport is connected and streaming, each change broadcasts it; otherwise nothing is sent, and the transport's rosters, service type and device name never change |

## Left out

- SwiftUI and UIKit rendering is left out. A view is kept as the trace of the primitive features that wrapped it, each with the trait it read. The drawing code, mirroring, hosting and system blur are not modelled.
- Floating-point colour and effect math is left out: lighting, contrast, HSL, autoadjust and the effect values.
  - The colours a palette paints, the text sizes and the base padding are parameters.
  - Effect values and textures are kept as the documents they encode to.
  - Multipliers, corner radii, paddings and shadows are Dafny `real`s and are only stored.
- Foundation's JSON coder is modelled as a document tree whose text form parses back to it. `NSKeyedArchiver` is modelled as an archived descriptor that unarchives back. `set(data64:)` in `Look+Init` is not part of this model.
- `Trait`'s `Codable` conformance is not modelled, because no core operation encodes a trait.
- The MultipeerConnectivity session, browser and advertiser are modelled as an action trace on `MultiPeer`. The session's connected peers are an input. `OperationQueue.main` dispatch is modelled as a direct call, and the weak delegate as the callback's return value.
- Time-based throttling is left out. Each firing of the look observer is one call of `CurrentLookChanged` or `TunedLookChanged`.
- Combine publishers (`ObservableObject`, `@Published`) are left out. Their effect is the field assignment.
- The random UUID salt in `Look`'s hash and `==` is left out, because it is nondeterministic. Creation ids and dates are parameters.
- The `alphanumeric` class is ASCII letters and digits. The source's Unicode class is larger.
- `Extensions.Lowercased` lower-cases ASCII letters only. The source's Unicode case mapping is larger.
- `Extensions.UIColorFromHex` counts characters as Unicode scalars. Swift's `count` and `hasPrefix` count grapheme clusters, so text holding a multi-scalar cluster such as "\r\n" has a different length here.
- `MultiPeer`'s `deinit` is not modelled. Releasing a transport calls `disconnect()` once more, so the session sees a second disconnect that the action trace does not record.
- `MultiPeer`'s implicitly unwrapped session, browser and advertiser are not modelled. Calling a method before `initialize` traps in the source; here the call is recorded in the trace.
- `LookFonts.NamedFont` stands for `UIFont(name:size:)` with its fallback to the system font. Which names resolve to a font is not modelled.
- `UIFont.systemFontSize` is the constant 14.
- `Looks.Published` and `Looks.Look.IncreasePublishedVersion` add one to an unbounded integer. Swift's `publishedVersion += 1` traps on `Int` overflow, which the model does not capture.
- `assert(false)` branches only crash debug builds, so they are no-ops here.
- `Lux+Render.swift` forwards to `Lux`. Only the `Lux` side is modelled.
- `look(refreshId:)`, `uiViewMirror` and `uiViewBlock` concern views and UIKit. They are not modelled.
- `Lux.spec` is `TraitProperties.Spec` of the `Lux`'s trait, with no method of its own.
- Blocks passed to `Lux` are pure functions of the view and trait they are given. A block's side effects on the `Lux` are not modelled.
- `Look+Provider.swift` only returns `Look.current`, which is `LookCurrent.CurrentState.Current`.
- `Peer` entries in `MultiPeer` are values. The source's state update through the first matching entry is modelled as a rewrite of that entry.
- `Specs.DecodeSpecification` states what decoding requires, not which effect fields are well-formed floating-point settings.
- `PaletteInfo.DefaultPalette`: the brand colours' exact hex values are not stated. They pass through `Color(hex:)`, which `Extensions.ColorFromHex` models.
