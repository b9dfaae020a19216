/** The store of fraud-detection results: one record per receipt, created
    or updated with the image-metadata analysis, and a combined risk score
    recomputed from the layer scores.

    A record is a value in the `metadata` map of the database under its
    receipt id; updating a field of the ORM object becomes replacing the
    value under that key. */
module MetadataService {
  import opened Wrappers
  import opened Models
  import Risk
  import ExifService

  /** The analysis dictionary handed to `save_layer2_results`: `None` is a
      key that is absent. */
  datatype Layer2Analysis = Layer2Analysis(
    exifStatus: Option<string>,
    hasEditingSoftware: Option<bool>,
    editingSoftware: Option<string>,
    isMobileCamera: Option<bool>,
    cameraModel: Option<string>,
    photoAgeDays: Option<int>,
    hasInconsistencies: Option<bool>,
    flags: Option<seq<string>>,
    riskScore: Option<real>,
    assessment: Option<string>)

  /** The dictionary `analyze_exif` returns, as the analysis to save: every
      key is present, and a `None` value reads the same as an absent key. */
  function AnalysisOf(r: ExifService.ExifReport): Layer2Analysis {
    Layer2Analysis(
      exifStatus := Some(r.exifStatus.Name()),
      hasEditingSoftware := Some(r.hasEditingSoftware),
      editingSoftware := r.editingSoftware,
      isMobileCamera := Some(r.isMobileCamera),
      cameraModel := r.cameraModel,
      photoAgeDays := r.photoAgeDays,
      hasInconsistencies := Some(r.hasInconsistencies),
      flags := Some(ExifService.FlagNames(r.flags)),
      riskScore := Some(r.riskScore),
      assessment := Some(r.assessment.Name()))
  }

  /** The record a receipt id has, if any: `.filter(receipt_id == …).first()`. */
  function Lookup(metadata: map<string, ReceiptMetadata>, receiptId: string): (r: Option<ReceiptMetadata>)
    ensures r.Some? <==> receiptId in metadata
    ensures r.Some? ==> r.value == metadata[receiptId]
  {
    if receiptId in metadata then Some(metadata[receiptId]) else None
  }

  /** `get_metadata`. */
  function GetMetadata(db: Database, receiptId: string): (r: Option<ReceiptMetadata>)
    reads db
    ensures r.Some? <==> receiptId in db.metadata
    ensures r.Some? ==> r.value == db.metadata[receiptId]
  {
    Lookup(db.metadata, receiptId)
  }

  // ---------------------------------------------------------------------
  // Saving the image-metadata layer
  // ---------------------------------------------------------------------

  /** The record after `save_layer2_results`: the existing one, or a new
      one, with the analysis copied in (`False`, `[]` and `0.0` for absent
      keys) and the tampering score set to the layer score. */
  function SaveLayer2(existing: Option<ReceiptMetadata>, receiptId: string, a: Layer2Analysis): ReceiptMetadata {
    var base := if existing.Some? then existing.value else NewRecord(receiptId);
    base.(
      exifStatus := a.exifStatus,
      hasEditingSoftware := a.hasEditingSoftware.GetOr(false),
      editingSoftwareName := a.editingSoftware,
      isMobileCamera := a.isMobileCamera,
      cameraModel := a.cameraModel,
      photoAgeDays := a.photoAgeDays,
      hasExifInconsistencies := a.hasInconsistencies.GetOr(false),
      exifFlags := a.flags.GetOr([]),
      layer2RiskScore := Some(a.riskScore.GetOr(0.0)),
      assessment := a.assessment,
      tamperingScore := a.riskScore.GetOr(0.0))
  }

  /** What a save promises: the record belongs to the receipt, the layer-2
      fields come from the analysis with their defaults, the tampering
      score equals the stored layer-2 score, and the fields of the other
      layers and the risk breakdown are those of the existing record, or
      unset for a new one. */
  lemma SavedFields(existing: Option<ReceiptMetadata>, receiptId: string, a: Layer2Analysis)
    requires existing.Some? ==> existing.value.receiptId == receiptId
    ensures var m := SaveLayer2(existing, receiptId, a);
            && m.receiptId == receiptId
            && m.exifStatus == a.exifStatus && m.editingSoftwareName == a.editingSoftware
            && m.isMobileCamera == a.isMobileCamera && m.cameraModel == a.cameraModel
            && m.photoAgeDays == a.photoAgeDays && m.assessment == a.assessment
            && (m.hasEditingSoftware <==> a.hasEditingSoftware == Some(true))
            && (m.hasExifInconsistencies <==> a.hasInconsistencies == Some(true))
            && (a.flags.None? ==> m.exifFlags == []) && (a.flags.Some? ==> m.exifFlags == a.flags.value)
            && (a.riskScore.None? ==> m.tamperingScore == 0.0)
            && (a.riskScore.Some? ==> m.tamperingScore == a.riskScore.value)
            && m.layer2RiskScore == Some(m.tamperingScore)
    ensures var m := SaveLayer2(existing, receiptId, a);
            existing.Some? ==> && m.layer3RiskScore == existing.value.layer3RiskScore
                               && m.layer4RiskScore == existing.value.layer4RiskScore
                               && m.riskFactors == existing.value.riskFactors
    ensures var m := SaveLayer2(existing, receiptId, a);
            existing.None? ==> m.layer3RiskScore.None? && m.layer4RiskScore.None? && m.riskFactors.None?
  {
  }

  /** Saving the same analysis twice leaves the record as saving it once. */
  lemma SaveIdempotent(existing: Option<ReceiptMetadata>, receiptId: string, a: Layer2Analysis)
    requires existing.Some? ==> existing.value.receiptId == receiptId
    ensures SaveLayer2(Some(SaveLayer2(existing, receiptId, a)), receiptId, a) == SaveLayer2(existing, receiptId, a)
  {
  }

  /** Saving the result of `analyze_exif` stores its status, flag names,
      score and assessment as text, and makes its score the tampering score. */
  lemma SavingExifReport(existing: Option<ReceiptMetadata>, receiptId: string, r: ExifService.ExifReport)
    ensures var m := SaveLayer2(existing, receiptId, AnalysisOf(r));
            && m.tamperingScore == r.riskScore && m.layer2RiskScore == Some(r.riskScore)
            && |m.exifFlags| == |r.flags|
            && (forall i | 0 <= i < |r.flags| :: m.exifFlags[i] == r.flags[i].Name())
            && m.exifStatus == Some(r.exifStatus.Name())
            && m.assessment == Some(r.assessment.Name())
            && m.hasEditingSoftware == r.hasEditingSoftware
            && m.hasExifInconsistencies == r.hasInconsistencies
  {
  }

  /** `save_layer2_results`: create the record if the receipt has none,
      then copy the analysis into it field by field. */
  method SaveLayer2Results(db: Database, receiptId: string, analysis: Layer2Analysis) returns (m: ReceiptMetadata)
    requires db.Valid()
    modifies db
    ensures db.Valid()
    ensures m == SaveLayer2(Lookup(old(db.metadata), receiptId), receiptId, analysis)
    ensures db.metadata == old(db.metadata)[receiptId := m]
    ensures db.requests == old(db.requests) && db.receipts == old(db.receipts)
    ensures db.nextRequestId == old(db.nextRequestId)
  {
    var metadata: ReceiptMetadata;
    if receiptId in db.metadata {
      metadata := db.metadata[receiptId];
    } else {
      metadata := NewRecord(receiptId);
    }
    metadata := metadata.(exifStatus := analysis.exifStatus);
    metadata := metadata.(hasEditingSoftware := analysis.hasEditingSoftware.GetOr(false));
    metadata := metadata.(editingSoftwareName := analysis.editingSoftware);
    metadata := metadata.(isMobileCamera := analysis.isMobileCamera);
    metadata := metadata.(cameraModel := analysis.cameraModel);
    metadata := metadata.(photoAgeDays := analysis.photoAgeDays);
    metadata := metadata.(hasExifInconsistencies := analysis.hasInconsistencies.GetOr(false));
    metadata := metadata.(exifFlags := analysis.flags.GetOr([]));
    metadata := metadata.(layer2RiskScore := Some(analysis.riskScore.GetOr(0.0)));
    metadata := metadata.(assessment := analysis.assessment);
    metadata := metadata.(tamperingScore := analysis.riskScore.GetOr(0.0));
    db.metadata := db.metadata[receiptId := metadata];
    m := metadata;
  }

  // ---------------------------------------------------------------------
  // The combined score
  // ---------------------------------------------------------------------

  /** The duplicate-detection layer's share: fraud outweighs a duplicate. */
  function Layer1Weight(fraud: bool, duplicate: bool): real {
    if fraud then 0.9 else if duplicate then 0.3 else 0.0
  }

  /** The sum of the layer scores, a missing score counting as 0.0. */
  function LayerSum(m: ReceiptMetadata, fraud: bool, duplicate: bool): real {
    m.layer2RiskScore.GetOr(0.0) + Layer1Weight(fraud, duplicate)
    + m.layer3RiskScore.GetOr(0.0) + m.layer4RiskScore.GetOr(0.0)
  }

  /** The combined score: the layer sum, capped at 1.0. */
  function CombinedRisk(m: ReceiptMetadata, fraud: bool, duplicate: bool): real {
    Risk.Cap(LayerSum(m, fraud, duplicate))
  }

  /** The record after `update_combined_risk_score`. */
  function Recomputed(m: ReceiptMetadata, fraud: bool, duplicate: bool): ReceiptMetadata {
    var total := CombinedRisk(m, fraud, duplicate);
    var assessment := Risk.Grade(total).Name();
    m.(
      tamperingScore := total,
      assessment := Some(assessment),
      riskFactors := Some(RiskFactors(
        fraudDetected := fraud,
        duplicateDetected := duplicate,
        layer2RiskScore := m.layer2RiskScore,
        layer2Flags := m.exifFlags,
        layer2HasEditingSoftware := m.hasEditingSoftware,
        layer2EditingSoftware := m.editingSoftwareName,
        totalRisk := total,
        assessment := assessment)))
  }

  /** The duplicate-detection share is 0.9 for fraud whatever the duplicate
      verdict, 0.3 for a duplicate alone and nothing otherwise: the two
      weights are never both added. */
  lemma Layer1Exclusive(fraud: bool, duplicate: bool)
    ensures Layer1Weight(true, duplicate) == 0.9
    ensures !fraud && duplicate ==> Layer1Weight(fraud, duplicate) == 0.3
    ensures !fraud && !duplicate ==> Layer1Weight(fraud, duplicate) == 0.0
    ensures Layer1Weight(fraud, duplicate) < 0.9 + 0.3
  {
  }

  /** The combined score is at most 1.0; it is the layer sum whenever that
      does not exceed 1.0; it is not negative when no layer score is. */
  lemma CombinedRiskBounds(m: ReceiptMetadata, fraud: bool, duplicate: bool)
    ensures CombinedRisk(m, fraud, duplicate) <= 1.0
    ensures LayerSum(m, fraud, duplicate) <= 1.0 ==> CombinedRisk(m, fraud, duplicate) == LayerSum(m, fraud, duplicate)
    ensures 1.0 < LayerSum(m, fraud, duplicate) ==> CombinedRisk(m, fraud, duplicate) == 1.0
    ensures (m.layer2RiskScore.GetOr(0.0) >= 0.0 && m.layer3RiskScore.GetOr(0.0) >= 0.0
             && m.layer4RiskScore.GetOr(0.0) >= 0.0) ==> CombinedRisk(m, fraud, duplicate) >= 0.0
  {
  }

  /** A fraud verdict alone makes the receipt high risk, whatever the other
      layers say, as long as none of them is negative. */
  lemma FraudIsHighRisk(m: ReceiptMetadata, duplicate: bool)
    requires m.layer2RiskScore.GetOr(0.0) >= 0.0 && m.layer3RiskScore.GetOr(0.0) >= 0.0
             && m.layer4RiskScore.GetOr(0.0) >= 0.0
    ensures Recomputed(m, true, duplicate).assessment == Some("high_risk")
  {
  }

  /** After recomputing: the tampering score is at most 1.0, the assessment
      follows the 0.7 and 0.4 thresholds on it, the breakdown repeats the
      stored total and assessment and the record's layer-2 fields, and no
      other field changes. */
  lemma RecomputedFields(m: ReceiptMetadata, fraud: bool, duplicate: bool)
    ensures var n := Recomputed(m, fraud, duplicate);
            && n.tamperingScore <= 1.0
            && n.tamperingScore == CombinedRisk(m, fraud, duplicate)
            && (n.assessment == Some("high_risk") <==> n.tamperingScore >= 0.7)
            && (n.assessment == Some("medium_risk") <==> 0.4 <= n.tamperingScore < 0.7)
            && (n.assessment == Some("low_risk") <==> n.tamperingScore < 0.4)
            && n.riskFactors.Some?
            && n.riskFactors.value.totalRisk == n.tamperingScore
            && Some(n.riskFactors.value.assessment) == n.assessment
            && n.riskFactors.value.fraudDetected == fraud
            && n.riskFactors.value.duplicateDetected == duplicate
            && n.riskFactors.value.layer2RiskScore == m.layer2RiskScore
            && n.riskFactors.value.layer2Flags == m.exifFlags
            && n.(tamperingScore := m.tamperingScore, assessment := m.assessment, riskFactors := m.riskFactors) == m
  {
    assert "high_risk" != "medium_risk" && "high_risk" != "low_risk" && "medium_risk" != "low_risk";
  }

  /** The recomputation starts from the layer scores, not from the previous
      result: it ignores the stored tampering score, assessment and
      breakdown, so repeating it changes nothing. */
  lemma RecomputeIdempotent(m: ReceiptMetadata, fraud: bool, duplicate: bool, previous: real)
    ensures Recomputed(Recomputed(m, fraud, duplicate), fraud, duplicate) == Recomputed(m, fraud, duplicate)
    ensures Recomputed(m.(tamperingScore := previous), fraud, duplicate) == Recomputed(m, fraud, duplicate)
  {
  }

  /** A record that only has the image-metadata score, saved from
      `analyze_exif`: the combined score with no duplicate verdict is that
      score capped at 1.0, with the same assessment the analysis gave. */
  lemma CombinedExifOnly(receiptId: string, r: ExifService.ExifReport)
    requires r.assessment == Risk.Grade(r.riskScore)
    ensures var n := Recomputed(SaveLayer2(None, receiptId, AnalysisOf(r)), false, false);
            n.tamperingScore == Risk.Cap(r.riskScore) && n.assessment == Some(r.assessment.Name())
  {
  }

  /** `update_combined_risk_score`: `None` for a receipt without a record;
      otherwise add up the layer scores, cap, grade and store the result
      with its breakdown. */
  method UpdateCombinedRiskScore(db: Database, receiptId: string, layer1Fraud: bool, layer1Duplicate: bool)
    returns (r: Option<ReceiptMetadata>)
    requires db.Valid()
    modifies db
    ensures db.Valid()
    ensures receiptId !in old(db.metadata) ==> r.None? && db.metadata == old(db.metadata)
    ensures receiptId in old(db.metadata) ==>
              && r == Some(Recomputed(old(db.metadata[receiptId]), layer1Fraud, layer1Duplicate))
              && db.metadata == old(db.metadata)[receiptId := r.value]
    ensures db.requests == old(db.requests) && db.receipts == old(db.receipts)
    ensures db.nextRequestId == old(db.nextRequestId)
  {
    if receiptId !in db.metadata {
      return None;
    }
    var metadata := db.metadata[receiptId];

    var totalRisk := metadata.layer2RiskScore.GetOr(0.0);
    if layer1Fraud {
      totalRisk := totalRisk + 0.9;
    } else if layer1Duplicate {
      totalRisk := totalRisk + 0.3;
    }
    totalRisk := totalRisk + metadata.layer3RiskScore.GetOr(0.0);
    totalRisk := totalRisk + metadata.layer4RiskScore.GetOr(0.0);
    totalRisk := if 1.0 < totalRisk then 1.0 else totalRisk;
    assert totalRisk == CombinedRisk(metadata, layer1Fraud, layer1Duplicate);

    var assessment;
    if totalRisk >= 0.7 {
      assessment := "high_risk";
    } else if totalRisk >= 0.4 {
      assessment := "medium_risk";
    } else {
      assessment := "low_risk";
    }
    assert assessment == Risk.Grade(totalRisk).Name();

    metadata := metadata.(tamperingScore := totalRisk, assessment := Some(assessment));
    var riskFactors := RiskFactors(
      fraudDetected := layer1Fraud,
      duplicateDetected := layer1Duplicate,
      layer2RiskScore := metadata.layer2RiskScore,
      layer2Flags := metadata.exifFlags,
      layer2HasEditingSoftware := metadata.hasEditingSoftware,
      layer2EditingSoftware := metadata.editingSoftwareName,
      totalRisk := totalRisk,
      assessment := assessment);
    metadata := metadata.(riskFactors := Some(riskFactors));
    db.metadata := db.metadata[receiptId := metadata];
    r := Some(metadata);
  }
}
