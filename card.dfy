/** The generator's command-line state and the order in which the card is
    built from it: barcode, displayed number, symbology label (which may
    overwrite the code type), owner name, logo, placement and file name. */
module Card {
  import opened Outcomes
  import opened Symbology
  import Layout
  import Output

  /** Why building a card stops. */
  datatype RunError =
    | EncoderRejected             // the barcode library refused the number
    | DisplayPanic                // slicing the number for display ran off its end
    | BadEanLength(e: LengthError) // `"ean"` with a length that is neither EAN-8 nor EAN-13

  /** Everything this repository decides about a card, ready for rendering. */
  datatype CardPlan = CardPlan(
    encoder: Encoder,
    barcodeSize: Size,
    display: string,
    symbologyLabel: string,
    placement: Layout.Placement,
    filename: string)

  /** The barcode library's verdict. The EAN encoder, which `"ean"` and every
      unknown name select, refuses any number whose length is not 7, 8, 12 or
      13; `encoderAccepts` stands for the library's verdict on everything
      else it checks (the characters of the number, an EAN check digit). */
  predicate Encodes(codeType: string, cardNumber: string, encoderAccepts: bool) {
    encoderAccepts && (Dispatch(codeType) == Ean ==> EanEncodableLength(|cardNumber|))
  }

  /** The stages in their program order, as a function of the flags. The
      encoder's verdict, the encoded barcode's native width, the thumbnail
      width of the logo and the three ink widths come from libraries and are
      inputs. A card is planned exactly when the encoder accepts the number,
      the number is long enough to be spaced and the code type resolves; the
      plan then holds the dispatched encoder, a 100-pixel-high barcode at
      least as wide as the native one, a display from which the number is
      recovered, the label of the resolved code type, the right-aligned owner
      name and the file name. */
  function Plan(codeType: string, cardNumber: string, cardOwner: string, shopName: string,
                encoderAccepts: bool, nativeWidth: nat, logoWidth: nat,
                codeInk: int, labelInk: int, ownerInk: int): (r: Result<CardPlan, RunError>)
    ensures r.Success? <==>
      Encodes(codeType, cardNumber, encoderAccepts) &&
      |cardNumber| >= MinDisplayLength(StyleOf(codeType)) && Resolve(codeType, |cardNumber|).Success?
    ensures !Encodes(codeType, cardNumber, encoderAccepts) ==> r == Failure(EncoderRejected)
    ensures r.Success? ==>
      r.value.encoder == Dispatch(codeType) &&
      r.value.barcodeSize.height == BarcodeHeight && r.value.barcodeSize.width >= nativeWidth &&
      Unformat(codeType, r.value.display) == cardNumber &&
      r.value.symbologyLabel == Label(Resolve(codeType, |cardNumber|).value) &&
      r.value.placement.owner.x + ownerInk == Layout.CardWidth - Layout.SideMargin &&
      r.value.filename == Output.CardFilename(shopName, cardOwner)
  {
    if !Encodes(codeType, cardNumber, encoderAccepts) then Failure(EncoderRejected)
    else
      var size := ScaleTarget(nativeWidth);
      match FormatCode(codeType, cardNumber)
      case SlicePanic => Failure(DisplayPanic)
      case Shown(display) =>
        DisplayRoundTrip(codeType, cardNumber);
        match ResolvedLabel(codeType, |cardNumber|)
        case Failure(e) => Failure(BadEanLength(e))
        case Success(labelText) =>
          Success(CardPlan(Dispatch(codeType), size, display, labelText,
            Layout.Compose(logoWidth, size.width, codeInk, labelInk, ownerInk),
            Output.CardFilename(shopName, cardOwner)))
  }

  /** The barcode stage runs first, so for `"ean"` and the unknown names a
      number of a length the EAN encoder refuses stops there: neither the
      display panic nor the length error is ever reached for them. */
  lemma {:induction false} EanFailuresAreEncoderRejections(codeType: string, cardNumber: string, cardOwner: string,
                      shopName: string, encoderAccepts: bool, nativeWidth: nat, logoWidth: nat,
                      codeInk: int, labelInk: int, ownerInk: int)
    requires Dispatch(codeType) == Ean
    ensures var r := Plan(codeType, cardNumber, cardOwner, shopName, encoderAccepts, nativeWidth, logoWidth, codeInk, labelInk, ownerInk);
      r.Failure? ==> r == Failure(EncoderRejected)
    ensures var r := Plan(codeType, cardNumber, cardOwner, shopName, encoderAccepts, nativeWidth, logoWidth, codeInk, labelInk, ownerInk);
      r.Success? <==> Encodes(codeType, cardNumber, encoderAccepts)
  {
    if Encodes(codeType, cardNumber, encoderAccepts) {
      assert StyleOf(codeType) == EanStyle;
      assert EanEncodableLength(|cardNumber|);
    }
  }

  /** Whatever the code type, the EAN length error is never what stops a card:
      `"ean"` only reaches the label stage with a length the encoder took. */
  lemma {:induction false} LengthErrorUnreachable(codeType: string, cardNumber: string, cardOwner: string,
                      shopName: string, encoderAccepts: bool, nativeWidth: nat, logoWidth: nat,
                      codeInk: int, labelInk: int, ownerInk: int)
    ensures !Plan(codeType, cardNumber, cardOwner, shopName, encoderAccepts, nativeWidth, logoWidth, codeInk, labelInk, ownerInk).Failure?
      || !Plan(codeType, cardNumber, cardOwner, shopName, encoderAccepts, nativeWidth, logoWidth, codeInk, labelInk, ownerInk).error.BadEanLength?
  {
    if Dispatch(codeType) == Ean {
      EanFailuresAreEncoderRejections(codeType, cardNumber, cardOwner, shopName, encoderAccepts,
                                      nativeWidth, logoWidth, codeInk, labelInk, ownerInk);
    }
  }

  /** The default flags give an EAN-13 card labelled "Code : EAN13", showing
      "1 234567 890123" and written to "Auchan_John Doe.jpg", provided the
      encoder accepts the default number. */
  lemma DefaultCard(encoderAccepts: bool, nativeWidth: nat, logoWidth: nat, codeInk: int, labelInk: int, ownerInk: int)
    ensures var r := Plan("ean", "1234567890123", "John Doe", "Auchan", encoderAccepts, nativeWidth, logoWidth, codeInk, labelInk, ownerInk);
      (r.Success? <==> encoderAccepts) &&
      (r.Success? ==>
        r.value.encoder == Ean && r.value.display == "1 234567 890123" &&
        r.value.symbologyLabel == "Code : EAN13" && r.value.filename == "Auchan_John Doe.jpg")
  {
    DefaultStages();
    DefaultDisplay();
    if encoderAccepts {
      PlanOfStages("ean", "1234567890123", "John Doe", "Auchan", nativeWidth, logoWidth, codeInk, labelInk, ownerInk,
                   "1 234567 890123", "Code : EAN13");
    }
  }

  /** The outcomes of the barcode, label and file-name stages for the default flags. */
  lemma DefaultStages()
    ensures Encodes("ean", "1234567890123", true)
    ensures ResolvedLabel("ean", 13) == Success("Code : EAN13")
    ensures Output.CardFilename("Auchan", "John Doe") == "Auchan_John Doe.jpg"
  {
    assert Dispatch("ean") == Ean;
  }

  /** The default number as the display stage spaces it. */
  lemma DefaultDisplay()
    ensures FormatCode("ean", "1234567890123") == Shown("1 234567 890123")
  {
    var number := "1234567890123";
    assert StyleOf("ean") == EanStyle;
    assert number[..1] == "1" && number[1..7] == "234567" && number[7..] == "890123";
  }

  /** The plan assembled from the outcomes of the display and label stages. */
  lemma PlanOfStages(codeType: string, cardNumber: string, cardOwner: string, shopName: string,
                     nativeWidth: nat, logoWidth: nat, codeInk: int, labelInk: int, ownerInk: int,
                     display: string, labelText: string)
    requires Encodes(codeType, cardNumber, true)
    requires FormatCode(codeType, cardNumber) == Shown(display)
    requires ResolvedLabel(codeType, |cardNumber|) == Success(labelText)
    ensures Plan(codeType, cardNumber, cardOwner, shopName, true, nativeWidth, logoWidth, codeInk, labelInk, ownerInk)
      == Success(CardPlan(Dispatch(codeType), ScaleTarget(nativeWidth), display, labelText,
           Layout.Compose(logoWidth, ScaleTarget(nativeWidth).width, codeInk, labelInk, ownerInk),
           Output.CardFilename(shopName, cardOwner)))
  {
  }

  /** The five command-line flags; `codeType` is overwritten while the card is built. */
  class Flags {
    var cardNumber: string
    var cardOwner: string
    var shopName: string
    var shopLogo: string
    var codeType: string

    /** The flags as parsed. */
    constructor (cardNumber: string, cardOwner: string, shopName: string, shopLogo: string, codeType: string)
      ensures this.cardNumber == cardNumber && this.cardOwner == cardOwner
      ensures this.shopName == shopName && this.shopLogo == shopLogo && this.codeType == codeType
    {
      this.cardNumber := cardNumber;
      this.cardOwner := cardOwner;
      this.shopName := shopName;
      this.shopLogo := shopLogo;
      this.codeType := codeType;
    }

    /** The flags' default values. */
    constructor Defaults()
      ensures cardNumber == "1234567890123" && cardOwner == "John Doe"
      ensures shopName == "Auchan" && shopLogo == "Auchan_logo.jpg" && codeType == "ean"
    {
      cardNumber := "1234567890123";
      cardOwner := "John Doe";
      shopName := "Auchan";
      shopLogo := "Auchan_logo.jpg";
      codeType := "ean";
    }

    /** Resolves `"ean"` in place and yields the symbology label. On a length
        error the code type is left as it was; nothing else changes. */
    method ResolveCodeType() returns (labelText: Result<string, LengthError>)
      modifies this`codeType
      ensures labelText == ResolvedLabel(old(codeType), |cardNumber|)
      ensures Resolve(old(codeType), |cardNumber|).Success? ==> codeType == Resolve(old(codeType), |cardNumber|).value
      ensures Resolve(old(codeType), |cardNumber|).Failure? ==> codeType == old(codeType)
    {
      if codeType == "ean" {
        if |cardNumber| == 12 || |cardNumber| == 13 {
          codeType := "ean13";
        } else if |cardNumber| == 7 || |cardNumber| == 8 {
          codeType := "ean8";
        } else {
          return Failure(LengthError(|cardNumber|));
        }
      }
      labelText := Success(Label(codeType));
    }

    /** A second resolution finds nothing left to change and yields the same label or error. */
    method ResolveTwice() returns (first: Result<string, LengthError>, second: Result<string, LengthError>)
      modifies this`codeType
      ensures first == ResolvedLabel(old(codeType), |cardNumber|)
      ensures second == first
      ensures first.Failure? ==> codeType == old(codeType)
      ensures first.Success? ==> codeType == Resolve(old(codeType), |cardNumber|).value
    {
      first := ResolveCodeType();
      ghost var resolved := codeType;
      if first.Success? {
        ResolveIdempotent(old(codeType), |cardNumber|);
      }
      second := ResolveCodeType();
      assert first.Success? ==> codeType == resolved;
    }

    /** Builds the card's plan in program order, stopping at the first error;
        the code type ends resolved once the label stage has run. */
    method Run(encoderAccepts: bool, nativeWidth: nat, logoWidth: nat, codeInk: int, labelInk: int, ownerInk: int)
      returns (r: Result<CardPlan, RunError>)
      modifies this`codeType
      ensures r == Plan(old(codeType), cardNumber, cardOwner, shopName, encoderAccepts, nativeWidth, logoWidth, codeInk, labelInk, ownerInk)
      ensures r.Success? ==> codeType == Resolve(old(codeType), |cardNumber|).value
      ensures r.Failure? ==> codeType == old(codeType)
    {
      var encoder := Dispatch(codeType);
      if !encoderAccepts || (encoder == Ean && !EanEncodableLength(|cardNumber|)) {
        return Failure(EncoderRejected);
      }
      var size := ScaleTarget(nativeWidth);
      var display := FormatCode(codeType, cardNumber);
      if display.SlicePanic? {
        return Failure(DisplayPanic);
      }
      var labelText := ResolveCodeType();
      if labelText.Failure? {
        return Failure(BadEanLength(labelText.error));
      }
      var placement := Layout.Compose(logoWidth, size.width, codeInk, labelInk, ownerInk);
      var filename := Output.CardFilename(shopName, cardOwner);
      r := Success(CardPlan(encoder, size, display.text, labelText.value, placement, filename));
    }
  }
}
