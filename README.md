# Link-preview utilities: colour, URL and text rules

This project models the pure helpers behind a link-preview image renderer:

- **Colour** (`utils/colour.ts`): the choice of black or white primary text
  for a background colour (`getTextColor`), the tone normalisation of a
  sampled background colour (`normalizeTone`), and the subtext colour, the
  background shifted by 40 per channel toward the text colour and written as
  a CSS `rgb(r, g, b)` string (`getSubTextColor`).
- **URL** (`utils/url.ts`): stripping a leading `http://` or `https://`
  (`removeProtocol`), adding `https://` to a bare or protocol-relative link
  (`addProtocol`), and reducing a link to its host part (`cleanUrl`).
- **Text** (`utils/text.ts`): cutting a description to a maximum length and
  appending `...` (`truncateText`).

The Dafny modules are `Colour`, `Decimal` (the decimal printing of channel
numbers in the CSS string, and a reader of it that serves only to state the
round trip; the program never reads the string back), `Url` and `Text`;
`Wrappers` holds the `Option` type. `normalizeTone` is written as a method
that reassigns its working channels as the program does, and is proved equal
to the function `NormalizedTone`, about which the remaining properties are
proved. The other operations are expressions in the program and are
functions here.

utils/colour.ts:26 links WCAG 2.1 relative luminance, which is defined on
gamma-decoded channels; the code applies its coefficients to the raw 0..255
values (and, in `normalizeTone`, to the raw values divided by 255), and the
model does the same. The subtext is "slightly darker/lighter than the
background" (utils/colour.ts:79-80) by a flat 40 per channel.

## Model

| member | source | states |
|---|---|---|
| Colour.GetTextColor | utils/colour.ts:28-31 | black exactly when 0.2126 r + 0.7152 g + 0.0722 b is strictly above 128 (as integers: 2126 r + 7152 g + 722 b > 1 280 000), white otherwise |
| Colour.GetTextColorMonotone | utils/colour.ts:29-30 | raising any channel never turns black text into white text, and lowering one never turns white into black |
| Colour.GetTextColorExtremes | utils/colour.ts:29-30 | white background gives black text, black background white text; grey 128 sits on the threshold and gives white, one more red gives black |
| Colour.Clamp01 | utils/colour.ts:60-62 | `min(1, max(0, x))` lies in [0, 1], is x inside that range, 0 below it and 1 above it |
| Colour.Round | utils/colour.ts:70-72 | `Math.round` gives the integer within half a unit, halves going up |
| Colour.ToneMean | utils/colour.ts:64 | the mean of the three clamped channels lies in [0, 1] |
| Colour.ToneChannel | utils/colour.ts:65-72 | each blended and rounded output channel is a byte, 0..255, whatever the input |
| Colour.ToneChannelMonotone | utils/colour.ts:60-72 | the per-channel pipeline (scale, clamp, blend toward the mean, round) is monotone in the input channel |
| Colour.NormalizedTone | utils/colour.ts:40-74 | the normalised colour always has byte channels |
| Colour.NormalizeTone | utils/colour.ts:40-74 | the step-by-step computation returns exactly NormalizedTone of its input, with byte channels |
| Colour.NormalizedToneIdentityOnMidRange | utils/colour.ts:47-73 | a byte colour with normalised luminance in [0.25, 0.75] comes back unchanged |
| Colour.NormalizedToneKeepsChannelOrder | utils/colour.ts:60-73 | for every pair of channels, their order (with ties) is kept |
| Colour.NormalizedToneKeepsGrey | utils/colour.ts:64-73 | a grey (equal channels) stays a grey |
| Colour.NormalizedToneOfWhite | utils/colour.ts:52-73 | white (255, 255, 255) becomes (204, 204, 204) |
| Colour.NormalizedToneOfBlack | utils/colour.ts:55-73 | black (0, 0, 0) stays black |
| Colour.NormalizedToneDarkensBright | utils/colour.ts:52-73 | a byte colour with normalised luminance above 0.75 comes out with a strictly smaller channel sum |
| Colour.Adjust | utils/colour.ts:87-88 | the result is a byte; it is c + amount when that is a byte, 0 below and 255 above |
| Colour.SubTextShade | utils/colour.ts:90-94 | the subtext channels are bytes |
| Colour.SubTextShadeDirection | utils/colour.ts:90-94 | under white text every channel rises by 40 or stops at 255; under black text every channel falls by 40 or stops at 0 |
| Colour.GetSubTextColor | utils/colour.ts:86-97 | the returned CSS string reads back as exactly the shifted channels |
| Colour.CssRgbRoundTrip | utils/colour.ts:96 | reading a written `rgb(r, g, b)` string gives the colour back |
| Colour.CssRgbInjective | utils/colour.ts:96 | two colours are written as the same string only if they are equal |
| Colour.ParseCssRgbIsCssRgb | utils/colour.ts:96 | the reader accepts only the written form: a string that reads as a colour is exactly that colour's `rgb(r, g, b)` string (no padding zeros, no other spacing) |
| Colour.GetSubTextColorUnique | utils/colour.ts:86-97 | the returned string is the only string that reads as the shifted channels, so the round trip pins the printed form |
| Decimal.NatToString | utils/colour.ts:96 | a channel is printed as a non-empty run of decimal digits with no leading zero (other than for 0) |
| Decimal.DigitsValueOfNatToString | utils/colour.ts:96 | the printed digits have the printed number as their value |
| Decimal.ReadNatOfNatToString | utils/colour.ts:96 | reading a number followed by a non-digit gives the number and the text after it |
| Decimal.NatToStringInjective | utils/colour.ts:96 | different numbers print differently |
| Decimal.NatToStringOfDigitsValue | utils/colour.ts:96 | a numeral without a leading zero is how its own value prints |
| Decimal.ReadNatIsNatToString | utils/colour.ts:96 | whatever the reader accepts is a printed number followed by a non-digit or the end |
| Url.RemoveProtocol | utils/url.ts:6-14 | the result is a suffix of the input, and what was removed is nothing, `http://` or `https://` |
| Url.RemoveProtocolCases | utils/url.ts:7-13 | input not starting with `http` is returned as is; `https://…` and `http://…` lose exactly that prefix; anything else is returned as is |
| Url.HttpExcludesDoubleSlash | utils/url.ts:7-12 | no string starts with both `http` and `//`, so the `//` branch is never taken |
| Url.RemoveProtocolKeepsProtocolRelative | utils/url.ts:7-12 | a protocol-relative link `//…` is returned unchanged |
| Url.AddProtocol | utils/url.ts:21-29 | the result starts with `http` and ends with the input |
| Url.AddProtocolCases | utils/url.ts:22-28 | `http…` is kept, `//…` gets `https:`, anything else gets `https://` |
| Url.AddProtocolIdempotent | utils/url.ts:21-29 | adding the protocol twice is adding it once |
| Url.RemoveAfterAdd | utils/url.ts:6-29 | a bare link (no `http`, no `//`) survives adding and then removing the protocol |
| Url.RemoveAfterAddProtocolRelative | utils/url.ts:6-29 | `//rest` becomes `rest` after adding and then removing the protocol |
| Url.AddAfterRemoveHttps | utils/url.ts:6-29 | an `https://` link whose rest is bare survives removing and then adding the protocol |
| Url.AddAfterRemoveHttp | utils/url.ts:6-29 | an `http://` link whose rest is bare comes back as the `https://` link |
| Url.FirstSegment | utils/url.ts:32 | `split("/")[0]` is the longest slash-free prefix: it has no `/` and is followed by `/` or the end |
| Url.FirstSegmentOfSlashFree | utils/url.ts:32 | a slash-free string is its own first segment |
| Url.FirstSegmentUpTo | utils/url.ts:32 | the first segment ends at the first `/` |
| Url.CleanUrl | utils/url.ts:31-33 | the host part has no `/`, is a prefix of the link without its protocol, and is all of it when that has no `/` |
| Url.CleanUrlIdempotent | utils/url.ts:31-33 | cleaning twice is cleaning once |
| Url.CleanUrlOfProtocolRelative | utils/url.ts:6-33 | a protocol-relative link has an empty host part |
| Url.CleanUrlExample | utils/url.ts:31-33 | `https://example.com/a/b` has host part `example.com` |
| Text.Slice | utils/text.ts:11 | `slice(0, end)` is a prefix of the text |
| Text.TruncateText | utils/text.ts:7-12 | text within the limit is returned unchanged; longer text gives a prefix of it followed by `...` |
| Text.TruncateTextCut | utils/text.ts:11 | for a non-negative limit below the length, the result is the first maxLength characters plus `...`, maxLength + 3 long |
| Text.TruncateTextCanGrow | utils/text.ts:8-11 | text one character over the limit comes out two characters longer |
| Text.TruncateTextKeepsPrefix | utils/text.ts:7-12 | the result starts with the first min(length, maxLength) characters of the text |
| Text.TruncateTextIdempotent | utils/text.ts:7-12 | for a non-negative limit, truncating twice is truncating once |
| Text.TruncateTextNegativeLimit | utils/text.ts:11 | a negative limit keeps all but the last -maxLength characters (none if there are fewer) and appends `...` |
| Text.TruncateTextNegativeNotIdempotent | utils/text.ts:7-12 | with limit -1, `""` becomes `...` and `...` becomes `.....` |

## Left out

- getDominantColor in utils/colour.ts: it decodes an image with the sharp library and reads its statistics; image decoding is not part of this model.
- The functions are `async` in the program; the model is synchronous, since none of them awaits anything.
- Floating point: the arithmetic of `normalizeTone` is exact rational arithmetic, where the program uses IEEE-754 doubles. Values that doubles round across a threshold or a rounding half come out differently. The byte colour (52, 236, 158) has normalised luminance exactly 0.75, and the model keeps it unchanged. In doubles the luminance is 0.7500000000000001, so the program darkens it. Likewise (39, 73, 45) and (104, 56, 22) sit exactly on 0.25, and doubles put them just below it. Saturated red (255, 0, 0) blends to exactly 8.5 in the green and blue channels, so the model gives (238, 9, 9), while doubles give (238, 8, 8). The text decision (`getTextColor`) is not affected on byte channels: the integer criterion agrees with the double computation.
- Colour.GetTextColor: channels are integers; the program accepts any number, but its callers pass bytes.
- Colour.NormalizeTone: channels are integers; fractional or non-finite channel numbers are not modelled.
- Colour.GetSubTextColor: the background channels are integers, so the CSS string always has integer channels; a fractional channel, which JavaScript would print with a decimal point, is not modelled.
- The strings "black" and "white" are the two values of the TextColor datatype.
- Text.TruncateText: lengths count sequence elements, where JavaScript counts UTF-16 code units; a fractional or non-finite maxLength is not modelled.
- Url: case-sensitive matching as in the program; the regular expression on line 13 is modelled by the two prefix tests it is equivalent to, and the unreachable `replace("//", "")` on line 11 by an impossible branch.
- utils/image.ts, utils/og.ts, the page and UI components and the shared types are not part of this model.
