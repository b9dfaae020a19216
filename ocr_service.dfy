/** Layer 3 of the fraud checks: scoring the text read off a receipt.

    The text comes in as a string; running the OCR engine on the image is
    not part of this model.  The card id and the receipt id are each the
    capture of the first pattern of a fixed list that matches anywhere in
    the text. */
module OcrService {
  import opened Wrappers
  import opened OcrPatterns
  import Risk

  /** `SERIE\s*CARD\s*[:\-]?\s*(\d{6,10})` and the four other labels of a card id. */
  const STPT_PATTERNS: seq<Pattern> := [
    Labeled(["SERIE", "CARD"], Digits, 6, 10),
    Labeled(["CARD", "ID"], Digits, 6, 10),
    Labeled(["CARD", "NO"], Digits, 6, 10),
    Labeled(["STPT", "ID"], Digits, 6, 10),
    Labeled(["STPT", "CARD"], Digits, 6, 10)]

  /** `(TR\d{14})`, then the three labels of a receipt id. */
  const RECEIPT_PATTERNS: seq<Pattern> := [
    Prefixed("TR", 14),
    Labeled(["RECEIPT"], IdChars, 8, 20),
    Labeled(["TRANSACTION"], IdChars, 8, 20),
    Labeled(["REF"], IdChars, 8, 20)]

  /** An extracted id and the confidence in it. */
  datatype Extraction = Extraction(id: Option<string>, confidence: real)

  /** `'SERIE' in pattern`. */
  predicate NamesSerie(p: Pattern) {
    p.Labeled? && "SERIE" in p.words
  }

  /** `extract_stpt_id`: the card id found by the first pattern that
      matches, 0.9 sure for the SERIE CARD label and 0.7 for the others. */
  function ExtractStptId(text: string): Extraction {
    match FirstMatch(text, STPT_PATTERNS)
    case None => Extraction(None, 0.0)
    case Some(h) => Extraction(Some(h.capture), if NamesSerie(STPT_PATTERNS[h.index]) then 0.9 else 0.7)
  }

  /** `extract_receipt_id`: the receipt id found by the first pattern that
      matches, always 0.8 sure. */
  function ExtractReceiptId(text: string): Extraction {
    match FirstMatch(text, RECEIPT_PATTERNS)
    case None => Extraction(None, 0.0)
    case Some(h) => Extraction(Some(h.capture), 0.8)
  }

  /** A flag `analyze_receipt_text` can raise; `Name` is the text it appends. */
  datatype OcrFlag =
    | OcrFailed
    | StptIdNotFound
    | StptIdLowConfidence
    | ReceiptIdNotFound
    | LowOcrQuality
  {
    function Name(): string {
      match this
      case OcrFailed => "ocr_failed"
      case StptIdNotFound => "stpt_id_not_found"
      case StptIdLowConfidence => "stpt_id_low_confidence"
      case ReceiptIdNotFound => "receipt_id_not_found"
      case LowOcrQuality => "low_ocr_quality"
    }
  }

  /** The result dictionary of `analyze_receipt_text`;
      `averageConfidence` is absent from the failure result. */
  datatype OcrReport = OcrReport(
    ocrSuccessful: bool,
    rawText: string,
    stptId: Option<string>,
    stptIdConfidence: real,
    receiptId: Option<string>,
    receiptIdConfidence: real,
    averageConfidence: Option<real>,
    riskScore: real,
    flags: seq<OcrFlag>)

  /** The fixed result when no text was read: medium risk. */
  const OCR_FAILED_REPORT: OcrReport := OcrReport(
    ocrSuccessful := false, rawText := "", stptId := None, stptIdConfidence := 0.0,
    receiptId := None, receiptIdConfidence := 0.0, averageConfidence := None,
    riskScore := 0.5, flags := [OcrFailed])

  /** Python's `if id:` on an extracted id: present and not empty. */
  predicate Found(id: Option<string>) {
    id.Some? && id.value != ""
  }

  type Contribution = Risk.Contribution<OcrFlag>

  const NOTHING: Contribution := Risk.Contribution(0.0, [])

  function StptStep(s: Extraction): Contribution {
    if !Found(s.id) then Risk.Contribution(0.4, [StptIdNotFound])
    else if s.confidence < 0.7 then Risk.Contribution(0.2, [StptIdLowConfidence])
    else NOTHING
  }

  function ReceiptStep(r: Extraction): Contribution {
    if !Found(r.id) then Risk.Contribution(0.1, [ReceiptIdNotFound]) else NOTHING
  }

  /** The mean of the two confidences, or 0.0 when neither id was found. */
  function AverageConfidence(s: Extraction, r: Extraction): real {
    if Found(s.id) || Found(r.id) then (s.confidence + r.confidence) / 2.0 else 0.0
  }

  function QualityStep(average: real): Contribution {
    if average < 0.6 then Risk.Contribution(0.2, [LowOcrQuality]) else NOTHING
  }

  /** What `analyze_receipt_text` reports for the text: the sum of the
      three steps' risks, capped at 1.0, and their flags in order. */
  function OcrAnalysis(text: string): OcrReport {
    if text == "" then OCR_FAILED_REPORT
    else
      var s := ExtractStptId(text);
      var r := ExtractReceiptId(text);
      var average := AverageConfidence(s, r);
      OcrReport(
        ocrSuccessful := true,
        rawText := text,
        stptId := s.id,
        stptIdConfidence := s.confidence,
        receiptId := r.id,
        receiptIdConfidence := r.confidence,
        averageConfidence := Some(average),
        riskScore := Risk.Cap(StptStep(s).risk + ReceiptStep(r).risk + QualityStep(average).risk),
        flags := StptStep(s).flags + ReceiptStep(r).flags + QualityStep(average).flags)
  }

  /** `analyze_receipt_text` on the text read off the receipt: adds up the
      risk and appends the flags step by step. */
  method AnalyzeReceiptText(rawText: string) returns (report: OcrReport)
    ensures report == OcrAnalysis(rawText)
  {
    if rawText == "" {
      return OCR_FAILED_REPORT;
    }
    var stpt := ExtractStptId(rawText);
    var receipt := ExtractReceiptId(rawText);

    var riskScore := 0.0;
    var flags: seq<OcrFlag> := [];
    if !Found(stpt.id) {
      riskScore := riskScore + 0.4;
      flags := flags + [StptIdNotFound];
    } else if stpt.confidence < 0.7 {
      riskScore := riskScore + 0.2;
      flags := flags + [StptIdLowConfidence];
    }
    assert riskScore == StptStep(stpt).risk && flags == StptStep(stpt).flags;

    ghost var before, beforeFlags := riskScore, flags;
    if !Found(receipt.id) {
      riskScore := riskScore + 0.1;
      flags := flags + [ReceiptIdNotFound];
    }
    assert riskScore == before + ReceiptStep(receipt).risk && flags == beforeFlags + ReceiptStep(receipt).flags;

    var average := if Found(stpt.id) || Found(receipt.id) then (stpt.confidence + receipt.confidence) / 2.0 else 0.0;
    before, beforeFlags := riskScore, flags;
    if average < 0.6 {
      riskScore := riskScore + 0.2;
      flags := flags + [LowOcrQuality];
    }
    assert riskScore == before + QualityStep(average).risk && flags == beforeFlags + QualityStep(average).flags;

    report := OcrReport(
      ocrSuccessful := true,
      rawText := rawText,
      stptId := stpt.id,
      stptIdConfidence := stpt.confidence,
      receiptId := receipt.id,
      receiptIdConfidence := receipt.confidence,
      averageConfidence := Some(average),
      riskScore := if 1.0 < riskScore then 1.0 else riskScore,
      flags := flags);
  }
}
