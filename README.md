# Loyalty card generator: a Dafny model of its decision logic

The generator turns five command-line strings (card number, owner name, shop
name, logo path, symbology `codeType`) into one JPEG loyalty card: a barcode,
the card number spaced for reading, a "Code : …" symbology label, the owner’s
name and the shop logo, placed on a 470 × 320 canvas. Barcode encoding, font
rasterisation, image decoding and resizing, compositing of pixels and JPEG
output are all done by libraries. This model covers the logic the repository
writes itself:

- `Symbology` (symbology.dfy): which encoder the `codeType` string selects, which
  always falls back to EAN for an unknown name. It also covers the size the barcode is
  scaled to, the per-symbology spacing of the displayed number (with Go's
  slice panics as an explicit `SlicePanic` outcome), and the override of
  `"ean"` to `"ean13"`/`"ean8"` by length, with its error message and the label text.
- `Layout` (layout.dfy): where `drawCard` puts each sub-image. It uses `draw.Draw`'s rule that
  the source point `sp` is aligned with the canvas corner, so an image's
  origin lands at `-sp`. It also defines Go's truncating `/ 2` (`GoHalf`), which
  differs from Dafny's Euclidean `/` on negative odd operands.
- `Output` (output.dfy): the output file name `shopName_cardOwner.jpg`.
- `Card` (card.dfy): the flags as a class `Flags`, whose `ResolveCodeType`
  overwrites `codeType` in place as `getCodeTypeImg` does. `Plan`/`Flags.Run` run the
  stages in program order: barcode, then display formatting, then label.
  Formatting therefore sees `"ean"` rather than the resolved name, and
  `FormatBeforeResolveIsHarmless` shows that this order does not change the
  result when resolution succeeds.
- `Text`, `Decimal` (text.dfy, decimal.dfy): ASCII upper-casing and `strconv.Itoa` with its inverse.
- `Outcomes` (outcomes.dfy): the `Option` and `Result` types the other modules share.

Library results are inputs of the model: the encoder's verdict on the
number, the encoded barcode's native width, the logo thumbnail's width and
the ink widths reported by the rasteriser. The one rule of the EAN encoder
the model does write out is its length rule: it takes 7, 8, 12 or 13
digits and refuses every other length (`EanEncodableLength`, `Card.Encodes`).

Behaviour of the code that is easy to miss:

- The barcode is encoded first (main.go:25-28). For `ean` and every unknown name
  that is the EAN encoder (functions.go:102-106), which refuses a number of any length
  other than 7, 8, 12 or 13. So such a number stops there with the encoder's
  error: it reaches neither the display slicing nor the length check
  (`EanFailuresAreEncoderRejections`). The length error of functions.go:158 is never
  what stops a card (`LengthErrorUnreachable`).
- By the EAN-13 check-digit rule, the check digit of the default number's first
  12 digits `123456789012` is 8, not the 3 the default ends in. The encoder's
  check-digit test is not modelled, so `DefaultCard` states the default card
  only for the case where the encoder accepts the number.
- EAN-8 numbers use the same 1 / 6 / rest spacing as EAN-13. There is no separate
  EAN-8 grouping.
- `main.go:58` passes two arguments to `saveloyaltyCard`, which takes one
  (`functions.go:230`). The file name follows `functions.go:231`.

## Model

| member | source | states |
|---|---|---|
| `Symbology.Dispatch` | functions.go:76-107 | The code-type switch agrees with the five-entry name table. Every string outside the table, `"ean"` included, selects EAN, and EAN is selected only for those strings. |
| `Symbology.DispatchDistinguishes` | functions.go:76-107 | The five names select five different encoders. Code 39 never gets a check digit and is full-ASCII only for `code39FullAscii`. Two-of-Five is always called with `true` (interleaved). |
| `Symbology.ScaleTarget` | functions.go:109-114 | The barcode is scaled to height 100, with width at least 200 and at least the native width. The width is one of those two, so it is their maximum. |
| `Symbology.ScaleTargetMonotoneAndStable` | functions.go:110-114 | A wider barcode never gets a narrower target. Applying the rule to an already-scaled width changes nothing. |
| `Symbology.FormatCode` | functions.go:119-129 | The display fails (Go slice panic) exactly when the number is shorter than its rule slices: 2 for codabar, 7 for EAN and unknown names, 0 for the rest. A shown text is 2 longer than the number, or the same length for the unspaced symbologies. |
| `Symbology.EanDisplayShape` | functions.go:128 | EAN/default spacing gives a text 2 longer with blanks at indices 1 and 8, so a 7-character number ends in a blank. Deleting those blanks gives back the number. |
| `Symbology.CodabarDisplayShape` | functions.go:121-122 | Codabar spacing keeps the first and last characters. It puts blanks at index 1 and at index `len`, and deleting them gives back the number. |
| `Symbology.UnspacedDisplayIsNumber` | functions.go:123-126 | `code128`, `code39`, `code39FullAscii` and `itf` display the number unchanged. |
| `Symbology.DisplayRoundTrip` | functions.go:119-129 | Whenever a text is displayed, `Unformat` recovers the card number from it. |
| `Symbology.Resolve` | functions.go:151-160 | A resolved code type is never `"ean"`. A failure happens only for `"ean"`, and it carries the number's length. |
| `Symbology.ResolveEan` | functions.go:151-159 | For `"ean"`: `ean13` exactly for lengths 12 and 13, `ean8` exactly for 7 and 8, and an error exactly for every other length. |
| `Symbology.ResolveKeepsOthers` | functions.go:151 | Any other code type is kept and never fails. |
| `Symbology.ResolveIdempotent` | functions.go:151-155 | Resolving an already-resolved code type changes nothing. |
| `Symbology.Message` | functions.go:158 | The error message quotes the decimal length right after its prefix and ends by asking for "8 or 13". The length can be read back from the message. |
| `Symbology.Label` | functions.go:171 | The label is `"Code : "` followed by the code type upper-cased character by character: same length, no lower-case letter after the prefix. |
| `Symbology.ResolvedLabel` | functions.go:149-171 | A code type other than `"ean"` is labelled as it is. `"ean"` is labelled "Code : EAN13" for lengths 12 and 13 and "Code : EAN8" for 7 and 8. The stage fails exactly for `"ean"` with any other length, and the error carries that length. |
| `Symbology.FormatBeforeResolveIsHarmless` | functions.go:120-129 | Formatting and encoder choice are the same for the resolved code type as for `"ean"`. When `"ean"` resolves, the display never panics. |
| `Text.ToUpper` | functions.go:171 | Upper-casing keeps the length, maps each character by ASCII upper-casing, and leaves no lower-case letter. |
| `Text.ToUpperIdempotent` | functions.go:171 | Upper-casing twice is the same as upper-casing once. |
| `Decimal.Itoa` | functions.go:158 | The rendered length is a non-empty digit string with no leading zero, unless it is "0". |
| `Decimal.AtoiItoa` | functions.go:158 | Reading the rendered length back gives the length. |
| `Decimal.ItoaInjective` | functions.go:158 | Different lengths give different numerals. |
| `Layout.GoHalf` | functions.go:221-223 | Go's `/ 2`: the remainder is -1, 0 or 1 and never has the opposite sign to the dividend. |
| `Layout.GoHalfUnique` | functions.go:221-223 | That contract determines the quotient uniquely. |
| `Layout.GoHalfVersusEuclidean` | functions.go:221-223 | Go's `/ 2` equals Dafny's `/ 2` for non-negative or even dividends, and is one more for negative odd ones. So Euclidean division would centre differently. |
| `Layout.DrawTranslates` | functions.go:221-225 | `draw.Draw` puts the source point on the canvas corner and the image origin at `-sp`, and every pixel keeps its offset from that origin. |
| `Layout.CentredMargins` | functions.go:221-223 | Centring with `-((d-470)/2)` leaves left and right margins that differ by at most 1. The odd pixel goes right for items narrower than the card and left for wider ones. |
| `Layout.Compose` | functions.go:218-225 | The logo is at y=50, the barcode at 122, the code text at 222, and the label and owner at 260. The logo, the barcode and the code text's ink are each centred within one pixel; the odd pixel goes to the right of an item narrower than the card and to the left of a wider one, as Go's truncating `/ 2` gives it. The label starts at x=50, and the owner's ink ends at x=420, 50 px from the right edge, for any ink width. |
| `Layout.BarcodeMeetsCodeText` | functions.go:112-114 | The code-text canvas starts on the row just below the scaled barcode (122 + 100 = 222). |
| `Layout.LabelClearOfOwner` | functions.go:224-225 | The owner's opaque 470-px canvas (created at functions.go:182), drawn after the label, leaves the label's ink intact exactly when the two ink widths sum to at most 370, or when the owner's ink is 840 px or wider so that its whole canvas lies left of the label. |
| `Output.CardFilename` | functions.go:231 | The file name is the shop name, `_`, the owner and `.jpg`. |
| `Output.FilenameRoundTrip` | functions.go:231 | When the shop name has no `_`, shop and owner are recovered from the file name. |
| `Output.FilenameCollision` | functions.go:231 | Without that condition, two different cards can get the same file name. |
| `Card.Plan` | main.go:25-58 | Among the outcomes the model has (encoder refusal, display panic, length error), a card is planned exactly when the encoder accepts, the number is long enough to space, and the code type resolves. A number the encoder refuses always stops at the encoder. The plan holds the dispatched encoder, a 100-px-high barcode at least the native width, a display that gives back the number, the resolved label, the right-aligned owner and the file name. |
| `Card.EanFailuresAreEncoderRejections` | main.go:25-37 | For `"ean"` and unknown names, the only way a card fails is the encoder's refusal. A card is planned exactly when the encoder accepts. |
| `Card.LengthErrorUnreachable` | main.go:25-40 | For any code type, the EAN length error of functions.go:158 never stops a card. |
| `Card.DefaultCard` | main.go:13-17 | With the default flags, a card is planned exactly when the encoder accepts the default number. It is then an EAN card showing "1 234567 890123", labelled "Code : EAN13" and written to "Auchan_John Doe.jpg". |
| `Card.Flags.constructor` | main.go:12-18 | The flags hold the parsed values. |
| `Card.Flags.Defaults` | main.go:13-17 | The flag defaults. |
| `Card.Flags.ResolveCodeType` | functions.go:149-171 | Overwrites `codeType` with its resolution. On a length error it leaves `codeType` as it was and returns the error. It yields the label of the resolved type. |
| `Card.Flags.ResolveTwice` | functions.go:151-155 | A second resolution yields the same label or error as the first and leaves `codeType` as the first left it. |
| `Card.Flags.Run` | main.go:25-58 | Runs the stages in program order against `Plan`. `codeType` ends resolved on success and unchanged on failure. |

## Left out

- Font loading in `init` (functions.go:43-67) and all freetype rendering: file I/O and a foreign rasteriser. The ink width of each rendered text is an input.
- `getOwnerImg` (functions.go:181-199): it only renders the owner name, and its ink width is an input to the layout.
- The barcode encoding algorithms and `barcode.Scale`: foreign library code. The model records which encoder is chosen, its flags and the requested size; whether the encoder accepts the number is an input.
- `getResizedLogo` (functions.go:201-216): file I/O, image decoding and the library's 400 × 50 nearest-neighbour thumbnail. The thumbnail width is an input.
- Pixel compositing inside `draw.Draw`: library code. Only the offset arithmetic is modelled. All sub-images are taken to have their origin at (0, 0), as the library returns them.
- `drawCard`'s `codeTypeLength` argument: it is unused by the source and has no effect in the model.
- JPEG encoding at quality 90, file creation and the "Wrote" message (functions.go:232-243): I/O. Two cards with the same file name overwrite each other; the model shows only that the names collide.
- Failures outside the modelled stages: the logo load (main.go:49-52), the
  font rendering of the code text and the label (functions.go:139-142, 172-174)
  and the file write (main.go:58-60). `Plan` has no outcome for them.
- The EAN encoder's check-digit test for 8- and 13-digit numbers, and the
  character checks of all encoders: library code. Their verdict is the
  `encoderAccepts` input.
- `main.go` flag parsing and `log.Fatal` exits: I/O. A fatal error is modelled as a `Failure` outcome, and a slicing panic as `SlicePanic`/`DisplayPanic`.
- Text.ToUpper: models Go's `strings.ToUpper` on ASCII letters only. Non-ASCII letters are left unchanged rather than mapped by Unicode rules.
- Go strings are byte strings: a Dafny string stands for one, one `char` per byte. Only upper-casing differs from Go, on non-ASCII bytes (see Text.ToUpper).
