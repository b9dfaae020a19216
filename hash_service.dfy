/** Layer 1 of the fraud checks: is this file already in the receipt
    store, for this student or for anyone?

    The SHA-256 digest of the file is an input, as an opaque string.  The
    store is the list of receipts in insertion order, and `.first()` is
    the first record of that list that passes the filter. */
module HashService {
  import opened Wrappers
  import opened Models

  /** The query filter: the hash, and the student when one is given. */
  predicate Matches(r: Receipt, fileHash: string, student: Option<int>) {
    r.sha256Hash == fileHash && (student.None? || r.studentId == student.value)
  }

  /** The position of the first record from `from` on that passes the filter. */
  function First(store: seq<Receipt>, fileHash: string, student: Option<int>, from: nat): (k: Option<nat>)
    requires from <= |store|
    ensures k.Some? ==> from <= k.value < |store| && Matches(store[k.value], fileHash, student)
    ensures k.Some? ==> forall j | from <= j < k.value :: !Matches(store[j], fileHash, student)
    ensures k.None? ==> forall j | from <= j < |store| :: !Matches(store[j], fileHash, student)
    decreases |store| - from
  {
    if from == |store| then None
    else if Matches(store[from], fileHash, student) then Some(from)
    else First(store, fileHash, student, from + 1)
  }

  /** `.first()` of the filtered query. */
  function FirstRecord(store: seq<Receipt>, fileHash: string, student: Option<int>): Option<nat> {
    First(store, fileHash, student, 0)
  }

  /** `check_duplicate`: the id of the first receipt with this hash that the
      same student submitted. */
  function CheckDuplicate(store: seq<Receipt>, fileHash: string, studentId: int): (r: (bool, Option<string>))
    ensures r.0 <==> exists i :: 0 <= i < |store| && store[i].sha256Hash == fileHash && store[i].studentId == studentId
    ensures r.0 <==> r.1.Some?
    ensures r.0 ==> exists i :: 0 <= i < |store| && store[i].sha256Hash == fileHash && store[i].studentId == studentId
                      && r.1 == Some(store[i].receiptId)
                      && forall j | 0 <= j < i :: !(store[j].sha256Hash == fileHash && store[j].studentId == studentId)
  {
    match FirstRecord(store, fileHash, Some(studentId))
    case None => (false, None)
    case Some(k) => (true, Some(store[k].receiptId))
  }

  /** `check_global_duplicate`: the student of the first receipt with this
      hash, whoever submitted it. */
  function CheckGlobalDuplicate(store: seq<Receipt>, fileHash: string): (r: (bool, Option<int>))
    ensures r.0 <==> exists i :: 0 <= i < |store| && store[i].sha256Hash == fileHash
    ensures r.0 <==> r.1.Some?
    ensures r.0 ==> exists i :: 0 <= i < |store| && store[i].sha256Hash == fileHash
                      && r.1 == Some(store[i].studentId)
                      && forall j | 0 <= j < i :: store[j].sha256Hash != fileHash
  {
    match FirstRecord(store, fileHash, None)
    case None => (false, None)
    case Some(k) => (true, Some(store[k].studentId))
  }

  /** The result dictionary of `validate_file_integrity`. */
  datatype IntegrityResult = IntegrityResult(
    sha256Hash: string,
    isDuplicate: bool,
    duplicateReceiptId: Option<string>,
    isGlobalDuplicate: bool,
    fraudSuspected: bool,
    otherStudentId: Option<int>)

  /** `validate_file_integrity` on a file whose digest is `fileHash`. */
  function ValidateFileIntegrity(store: seq<Receipt>, fileHash: string, studentId: int): IntegrityResult {
    var (isDup, dupReceiptId) := CheckDuplicate(store, fileHash, studentId);
    var (isGlobalDup, otherStudentId) := CheckGlobalDuplicate(store, fileHash);
    IntegrityResult(
      sha256Hash := fileHash,
      isDuplicate := isDup,
      duplicateReceiptId := dupReceiptId,
      isGlobalDuplicate := isGlobalDup && otherStudentId != Some(studentId),
      fraudSuspected := isGlobalDup && otherStudentId != Some(studentId),
      otherStudentId := if isGlobalDup then otherStudentId else None)
  }

  // ---------------------------------------------------------------------
  // The classification
  // ---------------------------------------------------------------------

  /** A record that passes the filter with none before it is the first. */
  lemma FirstIsAt(store: seq<Receipt>, fileHash: string, student: Option<int>, i: nat)
    requires i < |store| && Matches(store[i], fileHash, student)
    requires forall j | 0 <= j < i :: !Matches(store[j], fileHash, student)
    ensures FirstRecord(store, fileHash, student) == Some(i)
  {
  }

  /** Fraud is suspected exactly when the first stored receipt with this
      hash belongs to another student; the two verdict fields agree, and
      the other student reported is that receipt's. */
  lemma FraudIffFirstHolderDiffers(store: seq<Receipt>, fileHash: string, studentId: int)
    ensures var v := ValidateFileIntegrity(store, fileHash, studentId);
            && v.isGlobalDuplicate == v.fraudSuspected
            && (v.fraudSuspected <==>
                  exists i :: 0 <= i < |store| && store[i].sha256Hash == fileHash
                    && (forall j | 0 <= j < i :: store[j].sha256Hash != fileHash)
                    && store[i].studentId != studentId)
            && (v.otherStudentId.Some? ==>
                  exists i :: 0 <= i < |store| && store[i].sha256Hash == fileHash
                    && (forall j | 0 <= j < i :: store[j].sha256Hash != fileHash)
                    && v.otherStudentId == Some(store[i].studentId))
  {
    forall i | 0 <= i < |store| && store[i].sha256Hash == fileHash
               && (forall j | 0 <= j < i :: store[j].sha256Hash != fileHash)
      ensures FirstRecord(store, fileHash, None) == Some(i)
    {
      FirstIsAt(store, fileHash, None, i);
    }
  }

  /** When the submitter's own receipt is the first with this hash, fraud
      is not suspected, even if other students' copies follow. */
  lemma OwnFirstCopyIsNotFraud(store: seq<Receipt>, fileHash: string, studentId: int, i: nat)
    requires i < |store| && store[i].sha256Hash == fileHash && store[i].studentId == studentId
    requires forall j | 0 <= j < i :: store[j].sha256Hash != fileHash
    ensures ValidateFileIntegrity(store, fileHash, studentId).isDuplicate
    ensures !ValidateFileIntegrity(store, fileHash, studentId).fraudSuspected
  {
    FirstIsAt(store, fileHash, None, i);
  }

  /** An own copy is also a copy: a duplicate always reports a first
      holder, and a duplicate that is not fraud was first submitted by the
      same student. */
  lemma DuplicateHasHolder(store: seq<Receipt>, fileHash: string, studentId: int)
    ensures var v := ValidateFileIntegrity(store, fileHash, studentId);
            v.isDuplicate ==> v.otherStudentId.Some?
    ensures var v := ValidateFileIntegrity(store, fileHash, studentId);
            v.isDuplicate && !v.fraudSuspected ==> v.otherStudentId == Some(studentId)
  {
  }

  /** A hash no stored receipt has is neither a duplicate nor fraud, and
      reports no receipt and no student. */
  lemma UnseenHash(store: seq<Receipt>, fileHash: string, studentId: int)
    requires forall i | 0 <= i < |store| :: store[i].sha256Hash != fileHash
    ensures ValidateFileIntegrity(store, fileHash, studentId)
         == IntegrityResult(fileHash, false, None, false, false, None)
  {
  }

  // ---------------------------------------------------------------------
  // After a receipt is appended
  // ---------------------------------------------------------------------

  /** Appending a record that passes the filter to a store with no such
      record makes it the first. */
  lemma {:induction false} FirstAfterAppend(store: seq<Receipt>, x: Receipt, fileHash: string, student: Option<int>, from: nat)
    requires from <= |store|
    requires First(store, fileHash, student, from).None? && Matches(x, fileHash, student)
    ensures First(store + [x], fileHash, student, from) == Some(|store|)
    decreases |store| - from
  {
    if from < |store| {
      assert (store + [x])[from] == store[from];
      FirstAfterAppend(store, x, fileHash, student, from + 1);
    } else {
      assert (store + [x])[from] == x;
    }
  }

  /** A file is accepted, neither a duplicate nor fraud, exactly when no
      stored receipt has its hash. */
  lemma AcceptedIffUnseen(store: seq<Receipt>, fileHash: string, studentId: int)
    ensures var v := ValidateFileIntegrity(store, fileHash, studentId);
            (!v.isDuplicate && !v.fraudSuspected) <==> forall i | 0 <= i < |store| :: store[i].sha256Hash != fileHash
  {
    var k := FirstRecord(store, fileHash, None);
    if k.Some? && store[k.value].studentId == studentId {
      assert Matches(store[k.value], fileHash, Some(studentId));
    }
  }

  /** Once an accepted file is stored for a student, the same file is a
      duplicate and not fraud for that student, and fraud for every other
      student. */
  lemma StoredFileIsKnown(store: seq<Receipt>, x: Receipt, other: int)
    requires var v := ValidateFileIntegrity(store, x.sha256Hash, x.studentId); !v.isDuplicate && !v.fraudSuspected
    requires other != x.studentId
    ensures var v := ValidateFileIntegrity(store + [x], x.sha256Hash, x.studentId);
            v.isDuplicate && !v.fraudSuspected && v.duplicateReceiptId == Some(x.receiptId)
    ensures var v := ValidateFileIntegrity(store + [x], x.sha256Hash, other);
            v.fraudSuspected && !v.isDuplicate && v.otherStudentId == Some(x.studentId)
  {
    AcceptedIffUnseen(store, x.sha256Hash, x.studentId);
    var h := x.sha256Hash;
    assert First(store, h, Some(x.studentId), 0).None?;
    assert First(store, h, None, 0).None?;
    FirstAfterAppend(store, x, h, Some(x.studentId), 0);
    FirstAfterAppend(store, x, h, None, 0);
    assert First(store, h, Some(other), 0).None?;
    assert forall j | 0 <= j < |store + [x]| :: !Matches((store + [x])[j], h, Some(other)) by {
      forall j | 0 <= j < |store + [x]| ensures !Matches((store + [x])[j], h, Some(other)) {
        if j < |store| { assert (store + [x])[j] == store[j]; } else { assert (store + [x])[j] == x; }
      }
    }
  }
}
