# Receipt fraud detection: a verified model of the rule engine

This project models the fraud-detection rules of the Student Reimbursement
Platform back end. A student uploads a photo of a transit-card receipt, and
the back end runs these rule layers on it:

- **Layer 1, duplicate detection.** The file's SHA-256 digest is compared
  with the receipts already stored. A copy first submitted by another student
  is *fraud suspected*. A copy first submitted by the same student is a
  *duplicate*.
- **Layer 2, image metadata (EXIF).**
  - It looks for known editing software, unknown software, a mobile camera,
    inconsistent tags, an old photo and a missing timestamp.
  - Each finding adds a fixed weight to a risk score and a flag to the
    report.
  - The score is graded `high_risk` (≥ 0.7), `medium_risk` (≥ 0.4) or
    `low_risk`.
- **Layer 3, OCR text.** Two families of regular expressions look for the
  card id and the receipt transaction id in the recognised text. Missing ids
  and low confidence add to a risk score capped at 1.0.
- **The result store.** There is one record per receipt. Saving layer 2
  creates or updates that record. The combined score adds up the layer
  scores, adds 0.9 for fraud or else 0.3 for a duplicate, caps the total at
  1.0, grades it and stores a breakdown.
- **The upload decision.** A suspected fraud is rejected. Otherwise an own
  duplicate is rejected. Otherwise a pending request and the receipt are
  stored.

Modules:

| module | file | models |
|---|---|---|
| `Wrappers`, `Strings`, `Risk` | `wrappers.dfy`, `strings.dfy`, `risk.dfy` | `Option`; ASCII lower-casing and substring tests; the grade thresholds and the 1.0 cap |
| `ExifService`, `ExifProperties` | `exif_service.dfy`, `exif_properties.dfy` | the layer-2 checks and scoring; their properties |
| `OcrPatterns`, `OcrService`, `OcrProperties` | `ocr_patterns.dfy`, `ocr_service.dfy`, `ocr_properties.dfy` | a matcher for the regular expressions' shapes; the layer-3 extraction and scoring; their properties |
| `Models` | `models.dfy` | the request, receipt and metadata records, and the `Database` object holding the tables |
| `HashService` | `hash_service.dfy` | the layer-1 queries and the fraud/duplicate classification |
| `MetadataService` | `metadata_service.dfy` | saving layer 2, the combined score, and lookup |
| `HashLayerEndpoint` | `hash_layer_endpoint.dfy` | the decision half of the duplicate-check upload endpoint |

Notes on the model:

- Pure Python helpers are Dafny functions, and their properties are lemmas.
- The scoring routines build a score and a flag list step by step. They are
  methods with local state, proved equal to a specification function whose
  properties are lemmas.
- The database session is a `Database` object whose fields are the tables.
  The service operations that write to it are methods that modify it.
- Things the scoring code reads from the outside are parameters:
  - the tag dictionary of the image;
  - the recognised text;
  - the file digest;
  - the current time and a date parser;
  - the current year and the uuid of a new receipt.
- Two behaviours of the code are stated as lemmas:
  - `stpt_id_low_confidence` can never be raised (`OcrProperties.LowConfidenceNeverRaised`).
  - The layer-2 score is not capped and can reach 1.15 (`ExifProperties.RiskReachesMaximum`). It is stored as
    the initial tampering score until the combined score caps it.

## Model

(Source paths are relative to the repository root.)

| member | source | states |
|---|---|---|
| Strings.Lower | backend/app/services/validation/exif_service.py:91 | the lower-cased value has the same length, and each capital becomes the small letter at the same place in the alphabet while every other character stays |
| Strings.LowerIdempotent | backend/app/services/validation/exif_service.py:91 | no capital is left after lower-casing, a value without capitals is unchanged (so the lower-case constants are compared as written), and lower-casing twice is lower-casing once |
| Risk.Grade | backend/app/services/validation/exif_service.py:262-267 | `high_risk` exactly when the score is at least 0.7, `medium_risk` exactly when it is in [0.4, 0.7), `low_risk` exactly when it is below 0.4 |
| Risk.GradeMonotone | backend/app/services/metadata_service.py:81-86 | a higher score never gets a milder assessment |
| Risk.Cap | backend/app/services/metadata_service.py:78 | `min(x, 1.0)`: at most 1.0, and `x` itself whenever `x` does not exceed 1.0 |
| ExifService.FirstHitNone | backend/app/services/validation/exif_service.py:89-97 | a field scan finds nothing exactly when every field is absent or rejected |
| ExifService.FirstHitIsFirst | backend/app/services/validation/exif_service.py:89-95 | a field scan returns the verdict of an accepted field with every earlier field absent or rejected |
| ExifService.EditingSoftwareIsFirstMatch | backend/app/services/validation/exif_service.py:82-97 | editing software is reported exactly when one of Software, ProcessingSoftware, HostComputer names a known editor, case-insensitively; the value reported is the first such field's original value |
| ExifService.MobileCameraIsFirstMatch | backend/app/services/validation/exif_service.py:100-115 | a mobile camera is reported exactly when Model or Make names a mobile brand; the value is the first such field's original value |
| ExifService.AnySoftwareIsFirstMatch | backend/app/services/validation/exif_service.py:168-192 | unknown software is reported exactly when Software or ProcessingSoftware is longer than two characters and contains no safe pattern; the value is the first such field's |
| ExifService.PhotoAgeIsFirstParse | backend/app/services/validation/exif_service.py:118-137 | the age is the day difference to the first of DateTime, DateTimeOriginal, DateTimeDigitized that parses; none when none parses |
| ExifService.FlagNames | backend/app/services/validation/exif_service.py:203-259 | the stored flag list has one name per flag, in the same order |
| ExifService.InconsistencyFlagsExact | backend/app/services/validation/exif_service.py:140-165 | each of the three inconsistency flags is raised exactly when its condition holds on the tags, in check order |
| ExifService.CheckExifInconsistencies | backend/app/services/validation/exif_service.py:140-165 | the flags appended check by check are exactly the inconsistency flags, and found is reported exactly when the list is non-empty |
| ExifService.ScoreFindings | backend/app/services/validation/exif_service.py:203-282 | the step-by-step scoring gives the report defined by the findings |
| ExifService.AnalyzeExif | backend/app/services/validation/exif_service.py:195-282 | the analysis of a tag dictionary equals its specification `ExifAnalysis` |
| ExifProperties.MobileMatchNotEmpty | backend/app/services/validation/exif_service.py:111-113 | a reported camera model is never empty, so it is truthy where the scoring tests it at line 233 |
| ExifProperties.EmptyTagsReport | backend/app/services/validation/exif_service.py:207-215 | no tags: status missing, only the `no_exif_data` flag, score 0.4, medium risk, no camera, no software |
| ExifProperties.SoftwareVerdicts | backend/app/services/validation/exif_service.py:218-239 | `known_editing_software` iff a known editor is found; `post_capture_editing_detected` iff no known editor, unknown software and a mobile camera; `unknown_software_detected` iff no known editor, unknown software and no mobile camera |
| ExifProperties.OneSoftwareVerdict | backend/app/services/validation/exif_service.py:218-239 | at most one of the three software verdicts is in any report |
| ExifProperties.FlagsInCheckOrder | backend/app/services/validation/exif_service.py:203-259 | the flags appear in the order of the checks, each at most once |
| ExifProperties.RiskFromFlags | backend/app/services/validation/exif_service.py:242-245 | the score is the sum of its flags' weights plus 0.25 once when any inconsistency flag is present; inconsistencies are reported exactly when an inconsistency flag is present |
| ExifProperties.RiskBounds | backend/app/services/validation/exif_service.py:203-259 | the uncapped score lies in [0, 1.15] |
| ExifProperties.AssessmentOfScore | backend/app/services/validation/exif_service.py:262-267 | the assessment is the grade of the score, with the three threshold iffs |
| ExifProperties.RiskReachesMaximum | backend/app/services/validation/exif_service.py:203-259 | the bound 1.15 is reached by a tag set with unknown software on a Samsung, two inconsistencies, an old photo and no DateTime |
| ExifProperties.EditedIPhonePhoto | backend/app/services/validation/exif_service.py:218-267 | a Photoshop-edited iPhone photo without a timestamp is flagged `known_editing_software`, `missing_datetime`, score 0.7, high risk |
| OcrPatterns.RunLen | backend/app/services/validation/ocr_service.py:46 | a greedy run: every character in it is in the class and the next one is not |
| OcrPatterns.LeftmostIsFirst | backend/app/services/validation/ocr_service.py:54 | `re.search` finds nothing exactly when no position matches, else the match at the first position that matches |
| OcrPatterns.FirstMatchIsFirst | backend/app/services/validation/ocr_service.py:53-62 | the pattern loop returns the match of the first pattern that matches anywhere, or nothing when none does |
| OcrPatterns.SearchShape | backend/app/services/validation/ocr_service.py:46-51 | a labelled pattern's capture is lo..hi characters of its class at some place in the text, taken greedily: either cut at hi, or followed by the end of the text or by a character outside the class |
| OcrPatterns.PrefixedSearchShape | backend/app/services/validation/ocr_service.py:73 | a `TR\d{14}` hit is the prefix followed by exactly 14 digits |
| OcrProperties.StptIdIsFirstPattern | backend/app/services/validation/ocr_service.py:37-62 | the card id is the first of the five patterns' captures, with confidence 0.9 for the SERIE pattern and 0.7 for the others; none and 0.0 when no pattern matches |
| OcrProperties.StptIdShape | backend/app/services/validation/ocr_service.py:46-50 | a card id is 6 to 10 digits |
| OcrProperties.ReceiptIdIsFirstPattern | backend/app/services/validation/ocr_service.py:65-86 | the receipt id is the first of the four patterns' captures, confidence 0.8; none and 0.0 when no pattern matches |
| OcrProperties.ReceiptIdShape | backend/app/services/validation/ocr_service.py:72-77 | a receipt id is `TR` and 14 digits, or 8 to 20 letters, digits or hyphens |
| OcrProperties.FoundIffPresent | backend/app/services/validation/ocr_service.py:121-128 | an extracted id is never empty, so its truthiness is its presence |
| OcrProperties.EmptyTextReport | backend/app/services/validation/ocr_service.py:99-109 | empty text: OCR failed, no ids, confidences 0.0, score 0.5, only the `ocr_failed` flag |
| OcrProperties.LowConfidenceNeverRaised | backend/app/services/validation/ocr_service.py:124-126 | `stpt_id_low_confidence` is never raised, because every found card id has confidence at least 0.7 |
| OcrProperties.LowQualityIffMissingId | backend/app/services/validation/ocr_service.py:133-137 | on non-empty text, `low_ocr_quality` is raised exactly when at least one of the two ids is missing, since the average of the two confidences is always taken over both |
| OcrProperties.RiskFromFlags | backend/app/services/validation/ocr_service.py:118-147 | the score is the sum of its flags' weights, lies in [0, 1], and is at most 0.7 on non-empty text |
| OcrProperties.SerieCardId | backend/app/services/validation/ocr_service.py:46-59 | `SERIE CARD:555845` gives the card id `555845` with confidence 0.9 |
| OcrProperties.SerieCardHasNoReceiptId | backend/app/services/validation/ocr_service.py:72-86 | that text matches none of the receipt-id patterns |
| OcrProperties.SerieCardReport | backend/app/services/validation/ocr_service.py:112-149 | that text is flagged `receipt_id_not_found` and `low_ocr_quality`, score 0.3 |
| OcrService.AnalyzeReceiptText | backend/app/services/validation/ocr_service.py:89-149 | the step-by-step scoring of a text equals its specification `OcrAnalysis` |
| Models.NewRecord | backend/app/database/models/receipt_metadata.py:15-29 | a new record belongs to its receipt, has tampering score 0.0, no layer scores, no flags and no breakdown |
| Models.StoreKeepsConsistent | backend/app/database/models/receipt.py:11-13 | appending a request under the next id and a receipt with an unused id keeps ids unique and every receipt pointing at a stored request |
| Models.Database.constructor | backend/app/database/models/request.py:17 | an empty database: no rows, and request ids start at 1 |
| HashService.First | backend/app/services/validation/hash_service.py:29-32 | `.first()`: the earliest stored record passing the filter, or none when no record passes |
| HashService.CheckDuplicate | backend/app/services/validation/hash_service.py:24-37 | a duplicate exactly when the same student stored a receipt with this hash; the id reported is the earliest such receipt's |
| HashService.CheckGlobalDuplicate | backend/app/services/validation/hash_service.py:40-52 | a global copy exactly when any receipt has this hash; the student reported is the earliest such receipt's |
| HashService.FraudIffFirstHolderDiffers | backend/app/services/validation/hash_service.py:72-79 | fraud is suspected exactly when the first stored copy belongs to another student; the reported student is that copy's |
| HashService.OwnFirstCopyIsNotFraud | backend/app/services/validation/hash_service.py:76-77 | when the submitter's own copy is the first, the result is a duplicate and not fraud, even if later copies belong to others |
| HashService.DuplicateHasHolder | backend/app/services/validation/hash_service.py:78 | a duplicate always reports a first holder, and a duplicate that is not fraud reports the submitter |
| HashService.UnseenHash | backend/app/services/validation/hash_service.py:72-79 | an unseen hash gives no duplicate, no fraud, no receipt and no student |
| HashService.AcceptedIffUnseen | backend/app/services/validation/hash_service.py:55-81 | a file is neither a duplicate nor fraud exactly when no stored receipt has its hash |
| HashService.StoredFileIsKnown | backend/app/services/validation/hash_service.py:55-81 | once an accepted file is stored, it is a duplicate for its student and fraud for every other student |
| MetadataService.Lookup | backend/app/services/metadata_service.py:16-18 | a record is found exactly when one is stored under the receipt id, and it is that record |
| MetadataService.GetMetadata | backend/app/services/metadata_service.py:115-119 | the record stored under the receipt id, or none |
| MetadataService.SavedFields | backend/app/services/metadata_service.py:20-38 | the saved layer-2 fields come from the analysis with `False`, `[]` and `0.0` for absent keys; the tampering score is the layer-2 score; the other layers' scores and the breakdown are kept, or unset for a new record |
| MetadataService.SaveIdempotent | backend/app/services/metadata_service.py:16-38 | saving the same analysis twice gives the record that saving it once gives |
| MetadataService.SavingExifReport | backend/app/services/metadata_service.py:26-38 | saving the result of the EXIF analysis stores its flag names, status, assessment and verdicts, and makes its score the tampering score |
| MetadataService.SaveLayer2Results | backend/app/services/metadata_service.py:10-43 | the record under the receipt id becomes the saved record, the other tables are unchanged, and the schema invariants still hold |
| MetadataService.Layer1Exclusive | backend/app/services/metadata_service.py:66-69 | the layer-1 share is 0.9 for fraud whatever the duplicate verdict, 0.3 for a duplicate alone, 0 otherwise |
| MetadataService.CombinedRiskBounds | backend/app/services/metadata_service.py:63-78 | the combined score is at most 1.0, equals the layer sum when that is at most 1.0, and is not negative when no layer score is |
| MetadataService.FraudIsHighRisk | backend/app/services/metadata_service.py:66-86 | a fraud verdict alone makes the receipt high risk when no layer score is negative |
| MetadataService.RecomputedFields | backend/app/services/metadata_service.py:78-107 | after recomputing, the tampering score is the capped total, the assessment follows the thresholds, the breakdown repeats the total, the assessment, the verdicts and the layer-2 fields, and nothing else changes |
| MetadataService.RecomputeIdempotent | backend/app/services/metadata_service.py:63-89 | the recomputation ignores the previous tampering score, assessment and breakdown, so repeating it changes nothing |
| MetadataService.CombinedExifOnly | backend/app/services/metadata_service.py:63-89 | for a record saved from the EXIF analysis alone with no layer-1 verdict, the combined score is the EXIF score capped at 1.0, graded the same way |
| MetadataService.UpdateCombinedRiskScore | backend/app/services/metadata_service.py:46-112 | none and no change for a receipt without a record; otherwise the record becomes its recomputation, and nothing else changes |
| HashLayerEndpoint.DecimalString | backend/app/main.py:127 | `str(year)`: a numeral, meaning one or more decimal digits without a leading zero, that denotes the year |
| HashLayerEndpoint.NumeralIsDecimalString | backend/app/main.py:127 | every numeral for a number is the one `str` writes, so the path's year is the year's own spelling |
| HashLayerEndpoint.YearDigits | backend/app/main.py:127 | the year 2026 is written `2026` |
| HashLayerEndpoint.TestHashLayer | backend/app/main.py:89-143 | fraud, then a duplicate, is rejected with its message and nothing is stored; otherwise a pending request under the next id and the receipt with its path and hash are appended; the store stays consistent; afterwards the file is a duplicate for the student and fraud for everyone else |
| HashLayerEndpoint.SavedUploadIsKnown | backend/app/main.py:130-138 | the stored receipt is reported as the student's duplicate, and as another student's fraud with the student as holder |

## Left out

- The reading of inputs is left out, because it calls libraries whose behaviour is not part of this model:
  - `ExifService.extract_exif` (Pillow);
  - `OCRService.extract_text` (Tesseract and image preprocessing);
  - `HashService.compute_sha256` (file reading and `hashlib`).

  The model starts from their results: a tag dictionary, a text and a digest string.
- A `None` result of `extract_text` is the empty text, because both take the same branch at ocr_service.py:99.
- `datetime.now()` and `datetime.strptime` are parameters: a current timestamp and a `Calendar` offering a parser and a day difference. A parse failure is `None`, which is the caught exception.
- `datetime.now().year` and `uuid.uuid4()` at main.py:107-108 are inputs of `TestHashLayer`.
- The web framework is left out: FastAPI routing, the temporary file, the permanent directory, `shutil.copy`, the root and health endpoints, and CORS. The response dictionary is the `UploadResult` datatype.
- Scores are exact `real` numbers, not IEEE doubles. Sums such as 0.4 + 0.2 compare against 0.7 without floating-point rounding.
- `str(...)` of a non-string tag value is left out: tag values are strings already.
- Strings.Lower: lower-cases ASCII letters only, where Python's `str.lower` also maps other Unicode letters.
- Python's `\d` is modelled as the ASCII digits. `re.IGNORECASE` is modelled as ASCII case folding plus the four non-ASCII letters Python folds onto ASCII letters.
- The regular expressions are modelled by a matcher for their two shapes:
  - label words, optional separator, then a bounded run of one character class;
  - a prefix followed by a fixed count of digits.

  This is not a general regular-expression engine.
- `.first()` on an unordered query is read as the first row in insertion order.
- Transactions are left out: `db.commit()`, `db.flush()` and `db.refresh()` are not modelled separately. A write is visible at once.
- The ORM identity map is left out. A record is a value in a map, so aliasing between Python objects that hold the same row is not modelled.
- The foreign keys from receipts to students and from metadata to receipts are not enforced. Table `students` is not part of this model.
- Some fields that metadata_service.py reads and writes are not declared columns in receipt_metadata.py. These are `layer2_risk_score`, `layer3_risk_score`, `layer4_risk_score`, `editing_software_name`, `is_mobile_camera`, `camera_model`, `photo_age_days`, `has_exif_inconsistencies`, `exif_flags` and `assessment`. In the program this has two effects:
  - The assignments at metadata_service.py:28-35 set plain Python attributes on the object, and `db.commit()` does not persist them.
  - Nothing ever assigns `layer3_risk_score` or `layer4_risk_score`. So reading them at metadata_service.py:72 and 75 raises `AttributeError` for every stored record, and `update_combined_risk_score` never returns a record.
- MetadataService.SaveLayer2Results and MetadataService.UpdateCombinedRiskScore model the behaviour the code evidently intends instead: these fields are stored in the record like columns, and a layer score that was never written reads as 0.0.
- The layer-3 and layer-4 columns are not modelled: the extracted ids, the OCR confidence and the structural-anomaly fields. The same goes for `timestamp_inconsistency` and `created_at`, which the modelled operations never write. The OCR report is not saved anywhere in the modelled code.
- In `save_layer2_results`, a key that is present with the value `None` reads like an absent key. For `has_editing_software`, `has_inconsistencies`, `flags` and `risk_score`, Python would store `None` instead of the default.
- When the new receipt's uuid is already stored, `TestHashLayer` returns `Failed` and changes nothing. In Python the primary-key violation raises at the commit, and the session is rolled back.
- `ExifService.AnalyzeExif` runs all sub-checks first, then the scoring steps. The source interleaves them. This gives the same result, because the sub-checks are pure functions of the tags.
- Not part of this model: `routers/receipts.py`, `services/file_services.py`, `config.py` and the student model.

