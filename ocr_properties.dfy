/** What the text-extraction layer promises about the ids it extracts and
    the report it builds. */
module OcrProperties {
  import opened Wrappers
  import opened Strings
  import opened OcrPatterns
  import opened OcrService
  import Risk

  // ---------------------------------------------------------------------
  // The card id
  // ---------------------------------------------------------------------

  /** Only the first card pattern mentions SERIE. */
  lemma SerieOnlyInFirstPattern(k: nat)
    requires k < |STPT_PATTERNS|
    ensures NamesSerie(STPT_PATTERNS[k]) <==> k == 0
  {
    assert "SERIE" != "CARD" && "SERIE" != "ID" && "SERIE" != "NO" && "SERIE" != "STPT";
  }

  /** The card id comes from the first pattern in list order that matches
      anywhere in the text, whatever position later patterns match at; it
      is 0.9 sure for SERIE CARD and 0.7 for the others; with no match the
      result is no id and confidence 0.0. */
  lemma StptIdIsFirstPattern(text: string)
    ensures ExtractStptId(text).id.None? <==>
              forall k | 0 <= k < |STPT_PATTERNS| :: Search(text, STPT_PATTERNS[k]).None?
    ensures ExtractStptId(text).id.None? ==> ExtractStptId(text).confidence == 0.0
    ensures ExtractStptId(text).id.Some? ==>
              exists k :: 0 <= k < |STPT_PATTERNS|
                && Search(text, STPT_PATTERNS[k]) == ExtractStptId(text).id
                && (forall j | 0 <= j < k :: Search(text, STPT_PATTERNS[j]).None?)
                && ExtractStptId(text).confidence == (if k == 0 then 0.9 else 0.7)
  {
    FirstMatchIsFirst(text, STPT_PATTERNS);
    if FirstMatch(text, STPT_PATTERNS).Some? {
      var k := FirstMatch(text, STPT_PATTERNS).value.index;
      SerieOnlyInFirstPattern(k);
    }
  }

  /** A card id is 6 to 10 digits taken from the text. */
  lemma StptIdShape(text: string)
    ensures ExtractStptId(text).id.Some? ==> LabeledCapture(text, Digits, 6, 10, ExtractStptId(text).id.value)
  {
    FirstMatchIsFirst(text, STPT_PATTERNS);
    if FirstMatch(text, STPT_PATTERNS).Some? {
      var k := FirstMatch(text, STPT_PATTERNS).value.index;
      SearchShape(text, STPT_PATTERNS[k]);
    }
  }

  // ---------------------------------------------------------------------
  // The receipt id
  // ---------------------------------------------------------------------

  /** The receipt id comes from the first pattern in list order that
      matches; it is always 0.8 sure; with no match the result is no id and
      confidence 0.0. */
  lemma ReceiptIdIsFirstPattern(text: string)
    ensures ExtractReceiptId(text).id.None? <==>
              forall k | 0 <= k < |RECEIPT_PATTERNS| :: Search(text, RECEIPT_PATTERNS[k]).None?
    ensures ExtractReceiptId(text).confidence == (if ExtractReceiptId(text).id.Some? then 0.8 else 0.0)
    ensures ExtractReceiptId(text).id.Some? ==>
              exists k :: 0 <= k < |RECEIPT_PATTERNS|
                && Search(text, RECEIPT_PATTERNS[k]) == ExtractReceiptId(text).id
                && forall j | 0 <= j < k :: Search(text, RECEIPT_PATTERNS[j]).None?
  {
    FirstMatchIsFirst(text, RECEIPT_PATTERNS);
  }

  /** When the `TR` pattern matches, the receipt id is `TR` (in either case)
      and 14 digits; otherwise a found id is 8 to 20 letters, digits or
      hyphens. Either way it is taken from the text. */
  lemma ReceiptIdShape(text: string)
    ensures Search(text, RECEIPT_PATTERNS[0]).Some? ==>
              ExtractReceiptId(text).id == Search(text, RECEIPT_PATTERNS[0])
              && PrefixedCapture(text, "TR", 14, ExtractReceiptId(text).id.value)
    ensures Search(text, RECEIPT_PATTERNS[0]).None? && ExtractReceiptId(text).id.Some? ==>
              LabeledCapture(text, IdChars, 8, 20, ExtractReceiptId(text).id.value)
  {
    FirstMatchIsFirst(text, RECEIPT_PATTERNS);
    PrefixedSearchShape(text, RECEIPT_PATTERNS[0]);
    if FirstMatch(text, RECEIPT_PATTERNS).Some? {
      var k := FirstMatch(text, RECEIPT_PATTERNS).value.index;
      if k > 0 {
        SearchShape(text, RECEIPT_PATTERNS[k]);
      }
    }
  }

  /** Python's truth test on an extracted id is its presence: a capture is
      never empty. */
  lemma FoundIffPresent(text: string)
    ensures Found(ExtractStptId(text).id) <==> ExtractStptId(text).id.Some?
    ensures Found(ExtractReceiptId(text).id) <==> ExtractReceiptId(text).id.Some?
  {
    StptIdShape(text);
    ReceiptIdShape(text);
  }

  // ---------------------------------------------------------------------
  // The report
  // ---------------------------------------------------------------------

  /** No text: not successful, no ids, confidences 0.0, risk 0.5 and the
      single flag ocr_failed. */
  lemma EmptyTextReport()
    ensures var r := OcrAnalysis("");
            && !r.ocrSuccessful && r.rawText == ""
            && r.stptId.None? && r.stptIdConfidence == 0.0
            && r.receiptId.None? && r.receiptIdConfidence == 0.0
            && r.riskScore == 0.5 && r.flags == [OcrFailed]
  {
  }

  /** A found card id is at least 0.7 sure, so the low-confidence flag is
      never raised. */
  lemma LowConfidenceNeverRaised(text: string)
    ensures StptIdLowConfidence !in OcrAnalysis(text).flags
  {
    FoundIffPresent(text);
  }

  /** The low-quality flag is raised exactly when at least one id is
      missing, since a missing id counts as confidence 0.0. */
  lemma LowQualityIffMissingId(text: string)
    requires text != ""
    ensures LowOcrQuality in OcrAnalysis(text).flags <==>
              ExtractStptId(text).id.None? || ExtractReceiptId(text).id.None?
  {
    FoundIffPresent(text);
  }

  /** The risk a single flag stands for. */
  function FlagWeight(x: OcrFlag): real {
    match x
    case OcrFailed => 0.5
    case StptIdNotFound => 0.4
    case StptIdLowConfidence => 0.2
    case ReceiptIdNotFound => 0.1
    case LowOcrQuality => 0.2
  }

  /** The total weight of a list of flags. */
  function WeightOfFlags(flags: seq<OcrFlag>): real {
    Risk.Weight(flags, FlagWeight)
  }

  /** The risk is the sum of the weights of the flags raised, so the cap at
      1.0 never takes effect; it lies between 0 and 1, and between 0 and
      0.7 when text was read. */
  lemma RiskFromFlags(text: string)
    ensures OcrAnalysis(text).riskScore == WeightOfFlags(OcrAnalysis(text).flags)
    ensures 0.0 <= OcrAnalysis(text).riskScore <= 1.0
    ensures text != "" ==> OcrAnalysis(text).riskScore <= 0.7
  {
    Risk.WeightOfOne(OcrFailed, FlagWeight);
    Risk.WeightOfOne(StptIdNotFound, FlagWeight);
    Risk.WeightOfOne(StptIdLowConfidence, FlagWeight);
    Risk.WeightOfOne(ReceiptIdNotFound, FlagWeight);
    Risk.WeightOfOne(LowOcrQuality, FlagWeight);
    if text != "" {
      var s := ExtractStptId(text);
      var r := ExtractReceiptId(text);
      var average := AverageConfidence(s, r);
      Risk.WeightOfConcat(StptStep(s).flags, ReceiptStep(r).flags, FlagWeight);
      Risk.WeightOfConcat(StptStep(s).flags + ReceiptStep(r).flags, QualityStep(average).flags, FlagWeight);
    }
  }

  // ---------------------------------------------------------------------
  // A receipt with only a card id
  // ---------------------------------------------------------------------

  const SERIE_CARD_TEXT: string := "SERIE CARD:555845"

  lemma SerieCardLabel()
    ensures MatchWords(SERIE_CARD_TEXT, ["SERIE", "CARD"], 0) == Some(10)
  {
    var t := SERIE_CARD_TEXT;
    assert WordAt(t, "SERIE", 0);
    assert SkipSpace(t, 5) == 6;
    assert WordAt(t, "CARD", 6);
  }

  lemma SerieCardDigits()
    ensures SkipSpace(SERIE_CARD_TEXT, 10) == 10 && SERIE_CARD_TEXT[10] == ':'
    ensures SkipSpace(SERIE_CARD_TEXT, 11) == 11
    ensures RunLen(SERIE_CARD_TEXT, 11, Digits) == 6
  {
  }

  lemma SerieCardMatch()
    ensures MatchAt(SERIE_CARD_TEXT, STPT_PATTERNS[0], 0) == Some("555845")
  {
    SerieCardLabel();
    SerieCardDigits();
    assert SERIE_CARD_TEXT[11..17] == "555845";
  }

  lemma SerieCardId()
    ensures ExtractStptId(SERIE_CARD_TEXT) == Extraction(Some("555845"), 0.9)
  {
    SerieCardMatch();
    assert Search(SERIE_CARD_TEXT, STPT_PATTERNS[0]) == Some("555845");
    SerieOnlyInFirstPattern(0);
  }

  /** A word that needs a letter the text does not have occurs nowhere in it. */
  lemma MissingLetter(t: string, w: string, j: nat)
    requires j < |w| && forall i | 0 <= i < |t| :: !MatchesIgnoringCase(t[i], w[j])
    ensures forall i: nat :: !WordAt(t, w, i)
  {
    forall i: nat ensures !WordAt(t, w, i) {
      if i + |w| <= |t| {
        assert !MatchesIgnoringCase(t[i + j], w[j]);
      }
    }
  }

  /** A pattern whose first word occurs nowhere in the text finds nothing. */
  lemma NoFirstWordNoMatch(t: string, p: Pattern)
    requires p.Labeled? ==> p.words != [] && forall i: nat :: !WordAt(t, p.words[0], i)
    requires p.Prefixed? ==> forall i: nat :: !WordAt(t, p.prefix, i)
    ensures Search(t, p).None?
  {
    LeftmostIsFirst(MatcherOf(t, p), 0, |t|);
    assert forall j | 0 <= j <= |t| :: MatchAt(t, p, j).None?;
  }

  lemma SerieCardHasNoReceiptId()
    ensures ExtractReceiptId(SERIE_CARD_TEXT) == Extraction(None, 0.0)
  {
    var t := SERIE_CARD_TEXT;
    assert forall i | 0 <= i < |t| :: t[i] != 'T' && t[i] != 't' && t[i] != 'F' && t[i] != 'f';
    MissingLetter(t, "TR", 0);
    MissingLetter(t, "RECEIPT", 6);
    MissingLetter(t, "TRANSACTION", 0);
    MissingLetter(t, "REF", 2);
    NoFirstWordNoMatch(t, RECEIPT_PATTERNS[0]);
    NoFirstWordNoMatch(t, RECEIPT_PATTERNS[1]);
    NoFirstWordNoMatch(t, RECEIPT_PATTERNS[2]);
    NoFirstWordNoMatch(t, RECEIPT_PATTERNS[3]);
    FirstMatchIsFirst(t, RECEIPT_PATTERNS);
  }

  /** "SERIE CARD:555845": the card id 555845, 0.9 sure, no receipt id, so
      the flags receipt_id_not_found and low_ocr_quality and risk 0.3. */
  lemma SerieCardReport()
    ensures var r := OcrAnalysis(SERIE_CARD_TEXT);
            && r.stptId == Some("555845") && r.stptIdConfidence == 0.9
            && r.receiptId.None?
            && r.flags == [ReceiptIdNotFound, LowOcrQuality]
            && r.riskScore == 0.3
  {
    SerieCardId();
    SerieCardHasNoReceiptId();
  }
}
