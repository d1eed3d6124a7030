/** Per-symbology decisions of the card generator: which encoder the `codeType`
    flag selects, the size the barcode is scaled to, how the card number is
    spaced for display, and how `"ean"` is resolved to EAN-13 or EAN-8. */
module Symbology {
  import opened Text
  import opened Decimal
  import opened Outcomes

  // ---------------------------------------------------------------------------
  // Encoder dispatch
  // ---------------------------------------------------------------------------

  /** The encoder call chosen for a symbology, with the flags passed to it. */
  datatype Encoder =
    | Codabar
    | Code128
    | Code39(includeChecksum: bool, fullAscii: bool)
    | TwoOfFive(interleaved: bool)
    | Ean

  /** The `switch` on the code type: five names have their own encoder, as
      the table `NamedEncoders` lists them, and every other string, `"ean"`
      among them, falls through to EAN. */
  function Dispatch(codeType: string): (e: Encoder)
    ensures codeType in NamedEncoders ==> e == NamedEncoders[codeType]
    ensures codeType !in NamedEncoders ==> e == Ean
    ensures e == Ean <==> codeType !in NamedEncoders
  {
    if codeType == "codabar" then Codabar
    else if codeType == "code128" then Code128
    else if codeType == "code39" then Code39(false, false)
    else if codeType == "code39FullAscii" then Code39(false, true)
    else if codeType == "itf" then TwoOfFive(true)
    else Ean
  }

  /** The names that select their own encoder, as a table: an independent
      statement of the dispatch to check the `switch` against. */
  const NamedEncoders: map<string, Encoder> := map[
    "codabar" := Codabar,
    "code128" := Code128,
    "code39" := Code39(false, false),
    "code39FullAscii" := Code39(false, true),
    "itf" := TwoOfFive(true)
  ]

  /** No two names share an encoder, and Code 39 is never asked for a check
      digit while Two-of-Five is always interleaved. */
  lemma DispatchDistinguishes(a: string, b: string)
    requires a in NamedEncoders && b in NamedEncoders && a != b
    ensures Dispatch(a) != Dispatch(b)
    ensures Dispatch(a).Code39? ==> !Dispatch(a).includeChecksum && (Dispatch(a).fullAscii <==> a == "code39FullAscii")
    ensures Dispatch(a).TwoOfFive? ==> Dispatch(a).interleaved
  {
  }

  /** The lengths the EAN encoder library accepts: 7 or 12 digits, to which it
      adds the check digit, or 8 or 13 digits that already carry one. */
  predicate EanEncodableLength(n: nat) {
    n in {7, 8, 12, 13}
  }

  // ---------------------------------------------------------------------------
  // Barcode scaling
  // ---------------------------------------------------------------------------

  const MinBarcodeWidth: nat := 200
  const BarcodeHeight: nat := 100

  datatype Size = Size(width: nat, height: nat)

  /** The size the encoded barcode is scaled to from its native module width:
      the smallest width that is at least 200 and at least the native width,
      always 100 high. */
  function ScaleTarget(nativeWidth: nat): (s: Size)
    ensures s.height == BarcodeHeight
    ensures s.width >= MinBarcodeWidth && s.width >= nativeWidth
    ensures s.width == MinBarcodeWidth || s.width == nativeWidth
  {
    if MinBarcodeWidth > nativeWidth then Size(MinBarcodeWidth, BarcodeHeight)
    else Size(nativeWidth, BarcodeHeight)
  }

  /** A wider barcode is never scaled to a narrower image, and scaling an image
      that already has the target width asks for that width again. */
  lemma ScaleTargetMonotoneAndStable(m: nat, n: nat)
    requires m <= n
    ensures ScaleTarget(m).width <= ScaleTarget(n).width
    ensures ScaleTarget(ScaleTarget(n).width) == ScaleTarget(n)
  {
  }

  // ---------------------------------------------------------------------------
  // Display formatting of the card number
  // ---------------------------------------------------------------------------

  /** The three formatting rules of the display `switch`. */
  datatype Style = CodabarStyle | Unspaced | EanStyle

  function StyleOf(codeType: string): Style {
    if codeType == "codabar" then CodabarStyle
    else if codeType in {"code128", "code39", "code39FullAscii", "itf"} then Unspaced
    else EanStyle
  }

  /** The shortest number each rule can slice without a run-time panic. */
  function MinDisplayLength(style: Style): nat {
    match style
    case CodabarStyle => 2
    case Unspaced => 0
    case EanStyle => 7
  }

  /** The displayed text, or the panic that Go's slicing raises on a short number. */
  datatype Display = Shown(text: string) | SlicePanic

  /** The card number as printed under the barcode. Codabar keeps its first
      and last characters apart; EAN and every unknown name split after the
      first and the seventh characters; the others print the number as it is.
      It fails exactly when the number is shorter than the rule slices. */
  function FormatCode(codeType: string, number: string): (d: Display)
    ensures d.SlicePanic? <==> |number| < MinDisplayLength(StyleOf(codeType))
    ensures d.Shown? ==> |d.text| == |number| + (if StyleOf(codeType) == Unspaced then 0 else 2)
  {
    match StyleOf(codeType)
    case CodabarStyle =>
      if |number| < 2 then SlicePanic
      else Shown(number[..1] + " " + number[1..|number| - 1] + " " + number[|number| - 1..])
    case Unspaced => Shown(number)
    case EanStyle =>
      if |number| < 7 then SlicePanic
      else Shown(number[..1] + " " + number[1..7] + " " + number[7..])
  }

  /** The two indices at which a spacing rule inserts its blanks. */
  function SpaceIndices(style: Style, numberLength: nat): (ix: (nat, nat))
    requires style != Unspaced
  {
    if style == CodabarStyle then (1, numberLength) else (1, 8)
  }

  /** Reads the card number back from its displayed text: the inverse of `FormatCode`. */
  function Unformat(codeType: string, text: string): string {
    var style := StyleOf(codeType);
    if style == Unspaced || |text| < 2 then text
    else
      var (first, second) := SpaceIndices(style, |text| - 2);
      if first < second < |text| then RemoveAt(RemoveAt(text, second), first) else text
  }

  /** EAN spacing: two characters longer, blanks at indices 1 and 8, and
      deleting them gives back the number. */
  lemma {:induction false} EanDisplayShape(codeType: string, number: string)
    requires StyleOf(codeType) == EanStyle && |number| >= 7
    ensures FormatCode(codeType, number).Shown?
    ensures var t := FormatCode(codeType, number).text;
      |t| == |number| + 2 && t[1] == ' ' && t[8] == ' ' &&
      RemoveAt(RemoveAt(t, 8), 1) == number
  {
    var t := FormatCode(codeType, number).text;
    assert t == number[..1] + " " + number[1..7] + " " + number[7..];
    var u := RemoveAt(RemoveAt(t, 8), 1);
    assert |u| == |number|;
    forall k | 0 <= k < |number| ensures u[k] == number[k] {
      if k == 0 {
        assert u[k] == t[0] == number[..1][0];
      } else if k < 7 {
        assert u[k] == t[k + 1] == number[1..7][k - 1];
      } else {
        assert u[k] == t[k + 2] == number[7..][k - 7];
      }
    }
    assert u == number;
  }

  /** Codabar spacing: two characters longer, blanks at index 1 and just
      before the last character, and deleting them gives back the number. */
  lemma {:induction false} CodabarDisplayShape(number: string)
    requires |number| >= 2
    ensures FormatCode("codabar", number).Shown?
    ensures var t := FormatCode("codabar", number).text;
      |t| == |number| + 2 && t[0] == number[0] && t[1] == ' ' &&
      t[|number|] == ' ' && t[|number| + 1] == number[|number| - 1] &&
      RemoveAt(RemoveAt(t, |number|), 1) == number
  {
    var n := |number|;
    var t := FormatCode("codabar", number).text;
    assert t == number[..1] + " " + number[1..n - 1] + " " + number[n - 1..];
    var u := RemoveAt(RemoveAt(t, n), 1);
    assert |u| == n;
    forall k | 0 <= k < n ensures u[k] == number[k] {
      if k == 0 {
      } else if k < n - 1 {
        assert u[k] == t[k + 1];
      } else {
        assert u[k] == t[k + 2];
      }
    }
  }

  /** `code128`, `code39`, `code39FullAscii` and `itf` print the number unchanged. */
  lemma UnspacedDisplayIsNumber(codeType: string, number: string)
    requires codeType in {"code128", "code39", "code39FullAscii", "itf"}
    ensures FormatCode(codeType, number) == Shown(number)
  {
  }

  /** Whatever is displayed, the number can be read back from it. */
  lemma DisplayRoundTrip(codeType: string, number: string)
    requires FormatCode(codeType, number).Shown?
    ensures Unformat(codeType, FormatCode(codeType, number).text) == number
  {
    match StyleOf(codeType)
    case CodabarStyle => CodabarDisplayShape(number);
    case Unspaced =>
    case EanStyle => EanDisplayShape(codeType, number);
  }

  // ---------------------------------------------------------------------------
  // EAN length resolution and the symbology label
  // ---------------------------------------------------------------------------

  /** The length check failed; `length` is the card number's length. */
  datatype LengthError = LengthError(length: nat)

  const MessagePrefix: string := "ean code length is "
  const MessageSuffix: string := ". It should be 8 or 13."

  /** The text of the error returned for an EAN number of the wrong length:
      it quotes the decimal length right after its prefix, ends by asking for
      "8 or 13", and the length can be read back from it. */
  function Message(e: LengthError): (m: string)
    ensures OccursAt(Itoa(e.length), m, |MessagePrefix|)
    ensures OccursAt("8 or 13", m, |m| - 8)
    ensures ReportedLength(m) == Some(e.length)
  {
    NumeralMessageParts(e.length);
    MessagePrefix + Itoa(e.length) + MessageSuffix
  }

  /** The code type after the `"ean"` override: `"ean"` becomes `"ean13"` for
      12 or 13 characters and `"ean8"` for 7 or 8, any other length is an
      error naming that length; every other code type is kept. */
  function Resolve(codeType: string, numberLength: nat): (r: Result<string, LengthError>)
    ensures r.Success? ==> r.value != "ean"
    ensures r.Failure? ==> codeType == "ean" && r.error.length == numberLength
  {
    if codeType == "ean" then
      if numberLength == 12 || numberLength == 13 then Success("ean13")
      else if numberLength == 7 || numberLength == 8 then Success("ean8")
      else Failure(LengthError(numberLength))
    else Success(codeType)
  }

  /** Each outcome of resolving `"ean"`, in both directions. */
  lemma ResolveEan(numberLength: nat)
    ensures Resolve("ean", numberLength) == Success("ean13") <==> numberLength in {12, 13}
    ensures Resolve("ean", numberLength) == Success("ean8") <==> numberLength in {7, 8}
    ensures Resolve("ean", numberLength).Failure? <==> numberLength !in {7, 8, 12, 13}
  {
  }

  /** Any code type other than `"ean"` is left as it is and never fails. */
  lemma ResolveKeepsOthers(codeType: string, numberLength: nat)
    requires codeType != "ean"
    ensures Resolve(codeType, numberLength) == Success(codeType)
  {
  }

  /** Resolving a resolved code type changes nothing. */
  lemma ResolveIdempotent(codeType: string, numberLength: nat)
    requires Resolve(codeType, numberLength).Success?
    ensures var t := Resolve(codeType, numberLength).value;
      Resolve(t, numberLength) == Success(t)
  {
  }

  /** The digits at the head of `s`. */
  function LeadingDigits(s: string): (r: string)
    ensures AllDigits(r) && |r| <= |s| && r == s[..|r|]
    ensures |r| < |s| ==> !IsDigit(s[|r|])
  {
    if s == [] || !IsDigit(s[0]) then [] else [s[0]] + LeadingDigits(s[1..])
  }

  /** The length a length-error message reports, read off the message. */
  function ReportedLength(message: string): Option<nat> {
    if |message| >= |MessagePrefix| && message[..|MessagePrefix|] == MessagePrefix then
      var digits := LeadingDigits(message[|MessagePrefix|..]);
      if digits == [] then None else Some(Atoi(digits))
    else None
  }

  /** The parts of a message built around the numeral of `n`. */
  lemma {:induction false} NumeralMessageParts(n: nat)
    ensures var m := MessagePrefix + Itoa(n) + MessageSuffix;
      OccursAt(Itoa(n), m, |MessagePrefix|) &&
      OccursAt("8 or 13", m, |m| - 8) &&
      ReportedLength(m) == Some(n)
  {
    var d := Itoa(n);
    var m := MessagePrefix + d + MessageSuffix;
    assert OccursAt(d, m, |MessagePrefix|) by {
      assert m[|MessagePrefix|..|MessagePrefix| + |d|] == d;
    }
    assert OccursAt("8 or 13", m, |m| - 8) by {
      var head := MessagePrefix + d;
      assert m == head + MessageSuffix;
      SliceOfSuffix(head, MessageSuffix, |MessageSuffix| - 8, |MessageSuffix| - 1);
      assert MessageSuffix[|MessageSuffix| - 8..|MessageSuffix| - 1] == "8 or 13";
    }
    assert ReportedLength(m) == Some(n) by {
      assert m[..|MessagePrefix|] == MessagePrefix;
      assert m[|MessagePrefix|..] == d + MessageSuffix;
      LeadingDigitsOfNumeral(d, MessageSuffix);
      AtoiItoa(n);
    }
  }

  /** A slice that lies inside the second part of a concatenation. */
  lemma SliceOfSuffix(a: string, b: string, i: nat, j: nat)
    requires i <= j <= |b|
    ensures (a + b)[|a| + i..|a| + j] == b[i..j]
  {
  }

  lemma {:induction false} LeadingDigitsOfNumeral(d: string, tail: string)
    requires AllDigits(d) && tail != [] && !IsDigit(tail[0])
    ensures LeadingDigits(d + tail) == d
  {
    if d != [] {
      assert (d + tail)[1..] == d[1..] + tail;
      LeadingDigitsOfNumeral(d[1..], tail);
    }
  }

  const LabelPrefix: string := "Code : "

  /** The symbology label printed at the bottom left of the card. */
  function Label(codeType: string): (l: string)
    ensures |l| == |LabelPrefix| + |codeType|
    ensures l[..|LabelPrefix|] == LabelPrefix
    ensures forall i :: 0 <= i < |codeType| ==> l[|LabelPrefix| + i] == UpperChar(codeType[i])
    ensures forall i :: |LabelPrefix| <= i < |l| ==> !IsLowerAscii(l[i])
  {
    LabelPrefix + ToUpper(codeType)
  }

  /** The upper-cased names of the two EAN variants. */
  lemma UpperEanNames()
    ensures ToUpper("ean13") == "EAN13" && ToUpper("ean8") == "EAN8"
  {
    assert ToUpper("ean13") == [UpperChar('e')] + ToUpper("an13");
    assert ToUpper("an13") == [UpperChar('a')] + ToUpper("n13");
    assert ToUpper("n13") == [UpperChar('n')] + ToUpper("13");
    assert ToUpper("13") == [UpperChar('1')] + ToUpper("3");
    assert ToUpper("ean8") == [UpperChar('e')] + ToUpper("an8");
    assert ToUpper("an8") == [UpperChar('a')] + ToUpper("n8");
    assert ToUpper("n8") == [UpperChar('n')] + ToUpper("8");
  }

  /** The label stage: a code type other than `"ean"` is labelled as it is;
      `"ean"` is labelled "Code : EAN13" for 12 or 13 characters and
      "Code : EAN8" for 7 or 8, and any other length is the length error. */
  function ResolvedLabel(codeType: string, numberLength: nat): (r: Result<string, LengthError>)
    ensures codeType != "ean" ==> r == Success(Label(codeType))
    ensures codeType == "ean" && numberLength in {12, 13} ==> r == Success("Code : EAN13")
    ensures codeType == "ean" && numberLength in {7, 8} ==> r == Success("Code : EAN8")
    ensures r.Failure? <==> codeType == "ean" && numberLength !in {7, 8, 12, 13}
    ensures r.Failure? ==> r.error == LengthError(numberLength)
  {
    UpperEanNames();
    assert Label("ean13") == "Code : EAN13" && Label("ean8") == "Code : EAN8";
    ResolveEan(numberLength);
    match Resolve(codeType, numberLength)
    case Success(t) => Success(Label(t))
    case Failure(e) => Failure(e)
  }

  /** The display is formatted before the code type is resolved, yet the order
      is immaterial: `"ean13"` and `"ean8"` take the same spacing rule and the
      same encoder as `"ean"`. Whenever `"ean"` resolves, the number is long
      enough to be spaced without a panic. */
  lemma FormatBeforeResolveIsHarmless(codeType: string, number: string)
    requires Resolve(codeType, |number|).Success?
    ensures var t := Resolve(codeType, |number|).value;
      FormatCode(t, number) == FormatCode(codeType, number) && Dispatch(t) == Dispatch(codeType)
    ensures codeType == "ean" ==> FormatCode(codeType, number).Shown?
  {
  }
}
