/** The tables the fraud checks read and write: requests, receipts and the
    per-receipt fraud-detection record, held by one `Database` object that
    stands for the session and the tables behind it. */
module Models {
  import opened Wrappers

  /** The status of a reimbursement request; `Name` is its stored text. */
  datatype RequestStatus = Pending | Approved | Rejected | UnderReview {
    function Name(): string {
      match this
      case Pending => "pending"
      case Approved => "approved"
      case Rejected => "rejected"
      case UnderReview => "under_review"
    }
  }

  /** A row of `requests`; the id is the one the database assigns. */
  datatype Request = Request(requestId: nat, studentId: int, comment: string, status: RequestStatus)

  /** A row of `receipts`, keyed by `receiptId`; the hash is the SHA-256
      digest of the file as an opaque string. */
  datatype Receipt = Receipt(receiptId: string, studentId: int, requestId: nat, filePath: string, sha256Hash: string)

  /** The `risk_factors` breakdown that the combined score stores. */
  datatype RiskFactors = RiskFactors(
    fraudDetected: bool,
    duplicateDetected: bool,
    layer2RiskScore: Option<real>,
    layer2Flags: seq<string>,
    layer2HasEditingSoftware: bool,
    layer2EditingSoftware: Option<string>,
    totalRisk: real,
    assessment: string)

  /** A row of `receipt_metadata`: the fields the services read and write.
      A layer score that was never written is `None`. */
  datatype ReceiptMetadata = ReceiptMetadata(
    receiptId: string,
    exifStatus: Option<string>,
    hasEditingSoftware: bool,
    editingSoftwareName: Option<string>,
    isMobileCamera: Option<bool>,
    cameraModel: Option<string>,
    photoAgeDays: Option<int>,
    hasExifInconsistencies: bool,
    exifFlags: seq<string>,
    layer2RiskScore: Option<real>,
    layer3RiskScore: Option<real>,
    layer4RiskScore: Option<real>,
    assessment: Option<string>,
    tamperingScore: real,
    riskFactors: Option<RiskFactors>)

  /** The record `ReceiptMetadata(receipt_id=…)` creates: column defaults,
      everything else unset. */
  function NewRecord(receiptId: string): (m: ReceiptMetadata)
    ensures m.receiptId == receiptId && m.tamperingScore == 0.0
    ensures m.layer2RiskScore.None? && m.layer3RiskScore.None? && m.layer4RiskScore.None?
    ensures !m.hasEditingSoftware && !m.hasExifInconsistencies && m.exifFlags == [] && m.riskFactors.None?
  {
    ReceiptMetadata(
      receiptId := receiptId, exifStatus := None, hasEditingSoftware := false,
      editingSoftwareName := None, isMobileCamera := None, cameraModel := None,
      photoAgeDays := None, hasExifInconsistencies := false, exifFlags := [],
      layer2RiskScore := None, layer3RiskScore := None, layer4RiskScore := None,
      assessment := None, tamperingScore := 0.0, riskFactors := None)
  }

  /** Some receipt in the list has this id. */
  predicate HasReceiptId(receipts: seq<Receipt>, id: string) {
    exists i :: 0 <= i < |receipts| && receipts[i].receiptId == id
  }

  /** Some request in the list has this id. */
  predicate HasRequestId(requests: seq<Request>, id: nat) {
    exists i :: 0 <= i < |requests| && requests[i].requestId == id
  }

  /** The keys and references the schema declares: request ids are
      assigned in increasing order, receipt ids are unique, every receipt
      belongs to a stored request, and each metadata record sits under its
      own receipt id. */
  ghost predicate Consistent(requests: seq<Request>, receipts: seq<Receipt>,
                             metadata: map<string, ReceiptMetadata>, nextRequestId: nat)
  {
    && (forall i | 0 <= i < |requests| :: requests[i].requestId < nextRequestId)
    && (forall i, j | 0 <= i < j < |requests| :: requests[i].requestId < requests[j].requestId)
    && (forall i, j | 0 <= i < j < |receipts| :: receipts[i].receiptId != receipts[j].receiptId)
    && (forall i | 0 <= i < |receipts| :: HasRequestId(requests, receipts[i].requestId))
    && (forall id | id in metadata :: metadata[id].receiptId == id)
  }

  /** Storing a new request under the next id and a receipt with a fresh id
      that belongs to it keeps the tables consistent. */
  lemma StoreKeepsConsistent(requests: seq<Request>, receipts: seq<Receipt>,
                             metadata: map<string, ReceiptMetadata>, nextRequestId: nat,
                             request: Request, receipt: Receipt)
    requires Consistent(requests, receipts, metadata, nextRequestId)
    requires request.requestId == nextRequestId && receipt.requestId == nextRequestId
    requires !HasReceiptId(receipts, receipt.receiptId)
    ensures Consistent(requests + [request], receipts + [receipt], metadata, nextRequestId + 1)
  {
    var requests', receipts' := requests + [request], receipts + [receipt];
    assert requests'[|requests|] == request;
    forall i | 0 <= i < |receipts'| ensures HasRequestId(requests', receipts'[i].requestId) {
      if i < |receipts| {
        var j :| 0 <= j < |requests| && requests[j].requestId == receipts[i].requestId;
        assert requests'[j] == requests[j];
      } else {
        assert receipts'[i] == receipt;
      }
    }
  }

  /** The tables, in insertion order; `nextRequestId` is the id the
      database hands to the next request. */
  class Database {
    var requests: seq<Request>
    var receipts: seq<Receipt>
    var metadata: map<string, ReceiptMetadata>
    var nextRequestId: nat

    /** The keys and references of the schema hold of the tables. */
    ghost predicate Valid()
      reads this
    {
      Consistent(requests, receipts, metadata, nextRequestId)
    }

    /** An empty database. */
    constructor ()
      ensures Valid()
      ensures requests == [] && receipts == [] && metadata == map[] && nextRequestId == 1
    {
      requests := [];
      receipts := [];
      metadata := map[];
      nextRequestId := 1;
    }
  }
}
