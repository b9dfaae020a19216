/** The decision half of the duplicate-detection upload endpoint: reject a
    file that another student or the same student already submitted, or
    else store a new request and the receipt.

    The upload itself, the file copy, the clock and the uuid generator are
    not part of this model: the file's digest, its name and size, the
    current year and the new receipt's uuid come in as parameters. */
module HashLayerEndpoint {
  import opened Wrappers
  import opened Models
  import opened HashService

  /** What the endpoint did with the file; `Name` is the `action` text. */
  datatype Action = Rejected | Saved {
    function Name(): string {
      match this
      case Rejected => "rejected"
      case Saved => "saved"
    }
  }

  const FRAUD_MESSAGE: string := "\U{26A0}\U{FE0F} FRAUD ALERT: This receipt was already submitted by another student!"
  const DUPLICATE_MESSAGE: string := "\U{26A0}\U{FE0F} You already submitted this exact receipt before."
  const SAVED_MESSAGE: string := "\U{2705} File passed Layer 1 validation and saved to database!"
  const REQUEST_COMMENT: string := "Test upload via hash layer"

  /** The response: the integrity result with the file information, the
      message and the action, and for a stored file its receipt id and
      location. */
  datatype UploadResult = UploadResult(
    integrity: IntegrityResult,
    filename: string,
    fileSize: nat,
    studentId: int,
    message: string,
    action: Action,
    receiptId: Option<string>,
    fileLocation: Option<string>)

  /** The commit fails: a receipt with the new uuid is already stored. */
  datatype StoreError = ReceiptIdTaken(receiptId: string)

  datatype Outcome = Done(result: UploadResult) | Failed(error: StoreError)

  /** The number a string of decimal digits denotes, most significant
      digit first; a character that is not a digit counts as 0. */
  ghost function DigitsValue(s: string): nat {
    if s == [] then 0
    else
      var last := s[|s| - 1];
      DigitsValue(s[..|s| - 1]) * 10 + (if '0' <= last <= '9' then last as int - '0' as int else 0)
  }

  /** A decimal numeral: digits only, with no leading zero. */
  predicate Numeral(s: string) {
    && |s| >= 1
    && (forall i | 0 <= i < |s| :: '0' <= s[i] <= '9')
    && (|s| > 1 ==> s[0] != '0')
  }

  /** `str(n)`: the decimal digits of `n`, without leading zeros. */
  function DecimalString(n: nat): (s: string)
    ensures Numeral(s)
    ensures DigitsValue(s) == n
  {
    var d := [('0' as int + n % 10) as char];
    if n < 10 then d
    else
      var r := DecimalString(n / 10);
      assert (r + d)[..|r|] == r;
      r + d
  }

  /** A numeral whose first digit is not zero denotes a positive number. */
  lemma {:induction false} NumeralPositive(s: string)
    requires Numeral(s) && s[0] != '0'
    ensures DigitsValue(s) >= 1
    decreases |s|
  {
    if |s| > 1 {
      var p := s[..|s| - 1];
      assert p[0] == s[0];
      NumeralPositive(p);
    }
  }

  /** `str(n)` is the only numeral for `n`. */
  lemma {:induction false} NumeralIsDecimalString(s: string, n: nat)
    requires Numeral(s) && DigitsValue(s) == n
    ensures s == DecimalString(n)
    decreases |s|
  {
    var last := s[|s| - 1];
    var p := s[..|s| - 1];
    if |s| == 1 {
      assert s == [last];
    } else {
      assert p[0] == s[0];
      NumeralPositive(p);
      assert n / 10 == DigitsValue(p) && n % 10 == last as int - '0' as int;
      NumeralIsDecimalString(p, n / 10);
      assert s == p + [last];
    }
  }

  /** The year of the storage path, written out: 2026 is `2026`. */
  lemma YearDigits()
    ensures DecimalString(2026) == "2026"
  {
  }

  /** `f"uploads/receipts/{year}/{receipt_uuid}.jpg"`. */
  function FileLocation(year: nat, receiptUuid: string): string {
    "uploads/receipts/" + DecimalString(year) + "/" + receiptUuid + ".jpg"
  }

  /** The response before the decision: the integrity result and the file
      information. */
  function Response(integrity: IntegrityResult, filename: string, fileSize: nat, studentId: int): UploadResult {
    UploadResult(integrity, filename, fileSize, studentId, "", Action.Rejected, None, None)
  }

  /** `test_hash_layer` after the duplicate check: reject a suspected fraud,
      then an own duplicate; otherwise add a pending request and the
      receipt under the new uuid, and commit. */
  method TestHashLayer(db: Database, fileHash: string, studentId: int, filename: string, fileSize: nat,
                       year: nat, receiptUuid: string)
    returns (outcome: Outcome)
    requires db.Valid()
    modifies db
    ensures db.Valid()
    ensures db.metadata == old(db.metadata)
    ensures var v := ValidateFileIntegrity(old(db.receipts), fileHash, studentId);
            var base := Response(v, filename, fileSize, studentId);
            if v.fraudSuspected || v.isDuplicate then
              && outcome == Done(base.(message := if v.fraudSuspected then FRAUD_MESSAGE else DUPLICATE_MESSAGE,
                                       action := Action.Rejected))
              && db.requests == old(db.requests) && db.receipts == old(db.receipts)
              && db.nextRequestId == old(db.nextRequestId)
            else if HasReceiptId(old(db.receipts), receiptUuid) then
              && outcome == Failed(ReceiptIdTaken(receiptUuid))
              && db.requests == old(db.requests) && db.receipts == old(db.receipts)
              && db.nextRequestId == old(db.nextRequestId)
            else
              && outcome == Done(base.(message := SAVED_MESSAGE, action := Saved, receiptId := Some(receiptUuid),
                                       fileLocation := Some(FileLocation(year, receiptUuid))))
              && db.requests == old(db.requests) + [Request(old(db.nextRequestId), studentId, REQUEST_COMMENT, Pending)]
              && db.receipts == old(db.receipts)
                   + [Receipt(receiptUuid, studentId, old(db.nextRequestId), FileLocation(year, receiptUuid), fileHash)]
              && db.nextRequestId == old(db.nextRequestId) + 1
    ensures outcome.Done? && outcome.result.action == Saved ==>
              && ValidateFileIntegrity(db.receipts, fileHash, studentId).isDuplicate
              && !ValidateFileIntegrity(db.receipts, fileHash, studentId).fraudSuspected
              && forall other | other != studentId :: ValidateFileIntegrity(db.receipts, fileHash, other).fraudSuspected
  {
    var integrity := ValidateFileIntegrity(db.receipts, fileHash, studentId);
    var result := Response(integrity, filename, fileSize, studentId);

    if integrity.fraudSuspected {
      result := result.(message := FRAUD_MESSAGE, action := Action.Rejected);
    } else if integrity.isDuplicate {
      result := result.(message := DUPLICATE_MESSAGE, action := Action.Rejected);
    } else {
      if HasReceiptId(db.receipts, receiptUuid) {
        return Failed(ReceiptIdTaken(receiptUuid));
      }
      var newRequest := Request(db.nextRequestId, studentId, REQUEST_COMMENT, Pending);
      var relativeFilePath := FileLocation(year, receiptUuid);
      var newReceipt := Receipt(receiptUuid, studentId, newRequest.requestId, relativeFilePath, integrity.sha256Hash);
      StoreKeepsConsistent(db.requests, db.receipts, db.metadata, db.nextRequestId, newRequest, newReceipt);
      db.requests := db.requests + [newRequest];
      db.nextRequestId := db.nextRequestId + 1;
      db.receipts := db.receipts + [newReceipt];

      result := result.(message := SAVED_MESSAGE, action := Saved, receiptId := Some(receiptUuid),
                        fileLocation := Some(relativeFilePath));
      SavedUploadIsKnown(old(db.receipts), db.receipts, fileHash, studentId, year, receiptUuid, newRequest.requestId, studentId + 1);
      forall other | other != studentId
        ensures ValidateFileIntegrity(db.receipts, fileHash, other).fraudSuspected
      {
        SavedUploadIsKnown(old(db.receipts), db.receipts, fileHash, studentId, year, receiptUuid, newRequest.requestId, other);
      }
    }
    outcome := Done(result);
  }

  /** After a stored upload, the same file from the same student is a
      duplicate and not fraud, and from any other student it is fraud. */
  lemma SavedUploadIsKnown(db0: seq<Receipt>, db1: seq<Receipt>, fileHash: string, studentId: int,
                           year: nat, receiptUuid: string, requestId: nat, other: int)
    requires var v := ValidateFileIntegrity(db0, fileHash, studentId); !v.fraudSuspected && !v.isDuplicate
    requires db1 == db0 + [Receipt(receiptUuid, studentId, requestId, FileLocation(year, receiptUuid), fileHash)]
    requires other != studentId
    ensures ValidateFileIntegrity(db1, fileHash, studentId).isDuplicate
    ensures !ValidateFileIntegrity(db1, fileHash, studentId).fraudSuspected
    ensures ValidateFileIntegrity(db1, fileHash, studentId).duplicateReceiptId == Some(receiptUuid)
    ensures ValidateFileIntegrity(db1, fileHash, other).fraudSuspected
    ensures ValidateFileIntegrity(db1, fileHash, other).otherStudentId == Some(studentId)
  {
    StoredFileIsKnown(db0, Receipt(receiptUuid, studentId, requestId, FileLocation(year, receiptUuid), fileHash), other);
  }
}
