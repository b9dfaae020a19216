/** Layer 2 of the fraud checks: scoring the EXIF tags of a receipt photo.

    The tags come in as a map from tag name to its value as text; reading
    them out of the image is not part of this model.  The clock and the
    `"%Y:%m:%d %H:%M:%S"` timestamp parser are parameters (`Calendar`). */
module ExifService {
  import opened Wrappers
  import opened Strings
  import Risk

  type Tags = map<string, string>

  datatype Timestamp = Timestamp(year: int, month: int, day: int, hour: int, minute: int, second: int)

  /** The calendar collaborators: `parse` is `datetime.strptime(s, "%Y:%m:%d %H:%M:%S")`,
      `None` where it raises; `daysBetween(now, then)` is `(now - then).days`. */
  datatype Calendar = Calendar(parse: string -> Option<Timestamp>, daysBetween: (Timestamp, Timestamp) -> int)

  /** Substrings that name a photo editor. */
  const EDITING_SOFTWARE: seq<string> :=
    ["photoshop", "gimp", "paint.net", "affinity", "lightroom", "snapseed", "pixlr", "photoscape", "fotor"]

  /** Substrings that name a mobile phone maker. */
  const MOBILE_BRANDS: seq<string> :=
    ["iphone", "samsung", "google", "huawei", "xiaomi", "oppo", "vivo", "oneplus", "motorola", "nokia"]

  /** Substrings of software names that camera firmware legitimately writes. */
  const SAFE_SOFTWARE: seq<string> :=
    ["ios", "android", "firmware", "camera", "iphone", "samsung", "google", "huawei"]

  const EDITOR_FIELDS: seq<string> := ["Software", "ProcessingSoftware", "HostComputer"]
  const MODEL_FIELDS: seq<string> := ["Model", "Make"]
  const ANY_SOFTWARE_FIELDS: seq<string> := ["Software", "ProcessingSoftware"]
  const DATETIME_FIELDS: seq<string> := ["DateTime", "DateTimeOriginal", "DateTimeDigitized"]

  // ---------------------------------------------------------------------
  // First-match search over a field list
  // ---------------------------------------------------------------------

  /** `field` is present and its value passes `probe`. */
  predicate Hits<T>(tags: Tags, field: string, probe: string -> Option<T>) {
    field in tags && probe(tags[field]).Some?
  }

  /** The loop shared by the field checks: walk `fields` in order and return
      what `probe` makes of the first present field it accepts. */
  function FirstHit<T>(tags: Tags, fields: seq<string>, probe: string -> Option<T>): Option<T>
  {
    if fields == [] then None
    else if Hits(tags, fields[0], probe) then probe(tags[fields[0]])
    else FirstHit(tags, fields[1..], probe)
  }

  /** Nothing is found exactly when every field is absent or rejected. */
  lemma {:induction false} FirstHitNone<T>(tags: Tags, fields: seq<string>, probe: string -> Option<T>)
    ensures FirstHit(tags, fields, probe).None? <==> forall i :: 0 <= i < |fields| ==> !Hits(tags, fields[i], probe)
  {
    if fields != [] {
      FirstHitNone(tags, fields[1..], probe);
      assert forall i :: 1 <= i < |fields| ==> fields[i] == fields[1..][i - 1];
    }
  }

  /** A hit comes from some field that is accepted, and every field before
      it in the list is absent or rejected: the first match wins. */
  lemma {:induction false} FirstHitIsFirst<T>(tags: Tags, fields: seq<string>, probe: string -> Option<T>)
    requires FirstHit(tags, fields, probe).Some?
    ensures exists i :: 0 <= i < |fields| && Hits(tags, fields[i], probe)
              && FirstHit(tags, fields, probe) == probe(tags[fields[i]])
              && forall j :: 0 <= j < i ==> !Hits(tags, fields[j], probe)
  {
    if Hits(tags, fields[0], probe) {
      assert Hits(tags, fields[0], probe) && FirstHit(tags, fields, probe) == probe(tags[fields[0]]);
    } else {
      FirstHitIsFirst(tags, fields[1..], probe);
      var i :| 0 <= i < |fields[1..]| && Hits(tags, fields[1..][i], probe)
               && FirstHit(tags, fields[1..], probe) == probe(tags[fields[1..][i]])
               && forall j :: 0 <= j < i ==> !Hits(tags, fields[1..][j], probe);
      assert forall j :: 0 <= j < i + 1 ==> !Hits(tags, fields[j], probe) by {
        forall j | 0 <= j < i + 1 ensures !Hits(tags, fields[j], probe) {
          if j > 0 { assert fields[j] == fields[1..][j - 1]; }
        }
      }
      assert fields[i + 1] == fields[1..][i];
    }
  }

  /** The value names a known editor, ignoring case. */
  predicate NamesEditor(v: string) {
    ContainsAny(Lower(v), EDITING_SOFTWARE)
  }

  /** The value names a mobile phone maker, ignoring case. */
  predicate NamesMobileBrand(v: string) {
    ContainsAny(Lower(v), MOBILE_BRANDS)
  }

  /** The probes return the value itself, not lower-cased. */
  function EditorProbe(v: string): Option<string> {
    if NamesEditor(v) then Some(v) else None
  }

  function MobileProbe(v: string): Option<string> {
    if NamesMobileBrand(v) then Some(v) else None
  }

  /** `check_editing_software`: the value of the first of Software,
      ProcessingSoftware, HostComputer that names a known editor. */
  function CheckEditingSoftware(tags: Tags): Option<string> {
    FirstHit(tags, EDITOR_FIELDS, EditorProbe)
  }

  /** `check_mobile_camera`: the value of the first of Model, Make that
      names a mobile phone maker. */
  function CheckMobileCamera(tags: Tags): Option<string> {
    FirstHit(tags, MODEL_FIELDS, MobileProbe)
  }

  /** A software value that is not on the safe list and is longer than two characters. */
  predicate UnknownSoftware(v: string) {
    !ContainsAny(Lower(v), SAFE_SOFTWARE) && |Lower(v)| > 2
  }

  function UnknownSoftwareProbe(v: string): Option<string> {
    if UnknownSoftware(v) then Some(v) else None
  }

  /** `check_any_software`: the value of the first of Software,
      ProcessingSoftware that is not safe camera software. */
  function CheckAnySoftware(tags: Tags): Option<string> {
    FirstHit(tags, ANY_SOFTWARE_FIELDS, UnknownSoftwareProbe)
  }

  /** `get_photo_age_days`: the age in days of the first of DateTime,
      DateTimeOriginal, DateTimeDigitized that parses. */
  function PhotoAgeDays(tags: Tags, now: Timestamp, cal: Calendar): Option<int> {
    match FirstHit(tags, DATETIME_FIELDS, cal.parse)
    case None => None
    case Some(taken) => Some(cal.daysBetween(now, taken))
  }

  /** The editor check returns the original value of the first editor field
      whose lower-cased text names a known editor, and `None` when none does. */
  lemma EditingSoftwareIsFirstMatch(tags: Tags)
    ensures CheckEditingSoftware(tags).None? <==>
              forall i | 0 <= i < |EDITOR_FIELDS| && EDITOR_FIELDS[i] in tags :: !NamesEditor(tags[EDITOR_FIELDS[i]])
    ensures CheckEditingSoftware(tags).Some? ==>
              exists i :: 0 <= i < |EDITOR_FIELDS| && EDITOR_FIELDS[i] in tags
                && CheckEditingSoftware(tags).value == tags[EDITOR_FIELDS[i]]
                && NamesEditor(tags[EDITOR_FIELDS[i]])
                && forall j | 0 <= j < i && EDITOR_FIELDS[j] in tags :: !NamesEditor(tags[EDITOR_FIELDS[j]])
  {
    if CheckEditingSoftware(tags).Some? {
      FirstHitIsFirst(tags, EDITOR_FIELDS, EditorProbe);
    }
    FirstHitNone(tags, EDITOR_FIELDS, EditorProbe);
  }

  /** The same search over Model, Make and the mobile brands. */
  lemma MobileCameraIsFirstMatch(tags: Tags)
    ensures CheckMobileCamera(tags).None? <==>
              forall i | 0 <= i < |MODEL_FIELDS| && MODEL_FIELDS[i] in tags :: !NamesMobileBrand(tags[MODEL_FIELDS[i]])
    ensures CheckMobileCamera(tags).Some? ==>
              exists i :: 0 <= i < |MODEL_FIELDS| && MODEL_FIELDS[i] in tags
                && CheckMobileCamera(tags).value == tags[MODEL_FIELDS[i]]
                && NamesMobileBrand(tags[MODEL_FIELDS[i]])
                && forall j | 0 <= j < i && MODEL_FIELDS[j] in tags :: !NamesMobileBrand(tags[MODEL_FIELDS[j]])
  {
    if CheckMobileCamera(tags).Some? {
      FirstHitIsFirst(tags, MODEL_FIELDS, MobileProbe);
    }
    FirstHitNone(tags, MODEL_FIELDS, MobileProbe);
  }

  /** The same search over Software, ProcessingSoftware with the unknown-software test. */
  lemma AnySoftwareIsFirstMatch(tags: Tags)
    ensures CheckAnySoftware(tags).None? <==>
              forall i | 0 <= i < |ANY_SOFTWARE_FIELDS| && ANY_SOFTWARE_FIELDS[i] in tags ::
                !UnknownSoftware(tags[ANY_SOFTWARE_FIELDS[i]])
    ensures CheckAnySoftware(tags).Some? ==>
              exists i :: 0 <= i < |ANY_SOFTWARE_FIELDS| && ANY_SOFTWARE_FIELDS[i] in tags
                && CheckAnySoftware(tags).value == tags[ANY_SOFTWARE_FIELDS[i]]
                && UnknownSoftware(tags[ANY_SOFTWARE_FIELDS[i]])
                && forall j | 0 <= j < i && ANY_SOFTWARE_FIELDS[j] in tags :: !UnknownSoftware(tags[ANY_SOFTWARE_FIELDS[j]])
  {
    if CheckAnySoftware(tags).Some? {
      FirstHitIsFirst(tags, ANY_SOFTWARE_FIELDS, UnknownSoftwareProbe);
    }
    FirstHitNone(tags, ANY_SOFTWARE_FIELDS, UnknownSoftwareProbe);
  }

  /** The photo age comes from the first date field that parses; fields that
      do not parse are skipped; `None` when none parses. */
  lemma PhotoAgeIsFirstParse(tags: Tags, now: Timestamp, cal: Calendar)
    ensures PhotoAgeDays(tags, now, cal).None? <==>
              forall i | 0 <= i < |DATETIME_FIELDS| && DATETIME_FIELDS[i] in tags ::
                cal.parse(tags[DATETIME_FIELDS[i]]).None?
    ensures PhotoAgeDays(tags, now, cal).Some? ==>
              exists i :: 0 <= i < |DATETIME_FIELDS| && DATETIME_FIELDS[i] in tags
                && cal.parse(tags[DATETIME_FIELDS[i]]).Some?
                && PhotoAgeDays(tags, now, cal).value == cal.daysBetween(now, cal.parse(tags[DATETIME_FIELDS[i]]).value)
                && forall j | 0 <= j < i && DATETIME_FIELDS[j] in tags :: cal.parse(tags[DATETIME_FIELDS[j]]).None?
  {
    if PhotoAgeDays(tags, now, cal).Some? {
      FirstHitIsFirst(tags, DATETIME_FIELDS, cal.parse);
    }
    FirstHitNone(tags, DATETIME_FIELDS, cal.parse);
  }

  // ---------------------------------------------------------------------
  // Flags
  // ---------------------------------------------------------------------

  /** A flag `analyze_exif` can raise; `Name` is the text it appends. */
  datatype ExifFlag =
    | NoExifData
    | KnownEditingSoftware
    | PostCaptureEditingDetected
    | UnknownSoftwareDetected
    | SoftwareWithoutCameraModel
    | IncompleteCameraData
    | InconsistentTimestamps
    | NotMobileCamera
    | OldPhoto
    | MissingDatetime
  {
    function Name(): string {
      match this
      case NoExifData => "no_exif_data"
      case KnownEditingSoftware => "known_editing_software"
      case PostCaptureEditingDetected => "post_capture_editing_detected"
      case UnknownSoftwareDetected => "unknown_software_detected"
      case SoftwareWithoutCameraModel => "software_without_camera_model"
      case IncompleteCameraData => "incomplete_camera_data"
      case InconsistentTimestamps => "inconsistent_timestamps"
      case NotMobileCamera => "not_mobile_camera"
      case OldPhoto => "old_photo"
      case MissingDatetime => "missing_datetime"
    }

    /** The position of the flag in the order the checks run. */
    function Ordinal(): nat {
      match this
      case NoExifData => 0
      case KnownEditingSoftware => 1
      case PostCaptureEditingDetected => 2
      case UnknownSoftwareDetected => 3
      case SoftwareWithoutCameraModel => 4
      case IncompleteCameraData => 5
      case InconsistentTimestamps => 6
      case NotMobileCamera => 7
      case OldPhoto => 8
      case MissingDatetime => 9
    }

    /** The three verdicts about the software field. */
    predicate IsSoftwareVerdict() {
      this == KnownEditingSoftware || this == PostCaptureEditingDetected || this == UnknownSoftwareDetected
    }

    /** The three flags of the inconsistency check. */
    predicate IsInconsistency() {
      this == SoftwareWithoutCameraModel || this == IncompleteCameraData || this == InconsistentTimestamps
    }
  }

  /** The texts of a list of flags. */
  function FlagNames(flags: seq<ExifFlag>): (names: seq<string>)
    ensures |names| == |flags|
    ensures forall i :: 0 <= i < |flags| ==> names[i] == flags[i].Name()
  {
    if flags == [] then [] else [flags[0].Name()] + FlagNames(flags[1..])
  }

  /** The flags appear in strictly increasing check order: in the order
      the checks run, and none twice. */
  predicate InCheckOrder(flags: seq<ExifFlag>) {
    forall i, j :: 0 <= i < j < |flags| ==> flags[i].Ordinal() < flags[j].Ordinal()
  }

  // ---------------------------------------------------------------------
  // Inconsistency check
  // ---------------------------------------------------------------------

  /** Python's `d.get(k)` used as a condition: present and not empty. */
  predicate Truthy(tags: Tags, key: string) {
    key in tags && tags[key] != ""
  }

  predicate HasSoftwareWithoutModel(tags: Tags) {
    "Software" in tags && "Model" !in tags
  }

  predicate HasIncompleteCameraData(tags: Tags) {
    ("Make" !in tags || "Model" !in tags) && "DateTime" in tags
  }

  predicate HasInconsistentTimestamps(tags: Tags) {
    Truthy(tags, "DateTimeOriginal") && Truthy(tags, "DateTimeDigitized")
    && tags["DateTimeOriginal"] != tags["DateTimeDigitized"]
  }

  /** The flags the inconsistency check raises. */
  function InconsistencyFlags(tags: Tags): seq<ExifFlag> {
    (if HasSoftwareWithoutModel(tags) then [SoftwareWithoutCameraModel] else [])
    + (if HasIncompleteCameraData(tags) then [IncompleteCameraData] else [])
    + (if HasInconsistentTimestamps(tags) then [InconsistentTimestamps] else [])
  }

  /** Each inconsistency flag is raised exactly when its condition holds,
      nothing else is raised, and they come in the fixed order, none twice. */
  lemma InconsistencyFlagsExact(tags: Tags)
    ensures SoftwareWithoutCameraModel in InconsistencyFlags(tags) <==> HasSoftwareWithoutModel(tags)
    ensures IncompleteCameraData in InconsistencyFlags(tags) <==> HasIncompleteCameraData(tags)
    ensures InconsistentTimestamps in InconsistencyFlags(tags) <==> HasInconsistentTimestamps(tags)
    ensures forall f | f in InconsistencyFlags(tags) :: f.IsInconsistency()
    ensures InCheckOrder(InconsistencyFlags(tags))
  {
  }

  /** `check_exif_inconsistencies`: appends the flags one check at a time. */
  method CheckExifInconsistencies(tags: Tags) returns (found: bool, flags: seq<ExifFlag>)
    ensures flags == InconsistencyFlags(tags)
    ensures found <==> flags != []
  {
    flags := [];
    if "Software" in tags && "Model" !in tags {
      flags := flags + [SoftwareWithoutCameraModel];
    }
    var missing := (if "Make" !in tags then ["Make"] else []) + (if "Model" !in tags then ["Model"] else []);
    if |missing| >= 1 && "DateTime" in tags {
      flags := flags + [IncompleteCameraData];
    }
    var original := if "DateTimeOriginal" in tags then Some(tags["DateTimeOriginal"]) else None;
    var digitized := if "DateTimeDigitized" in tags then Some(tags["DateTimeDigitized"]) else None;
    if original.Some? && original.value != "" && digitized.Some? && digitized.value != ""
       && original.value != digitized.value {
      flags := flags + [InconsistentTimestamps];
    }
    found := |flags| > 0;
  }

  // ---------------------------------------------------------------------
  // Scoring
  // ---------------------------------------------------------------------

  /** What the sub-checks of `analyze_exif` found, before any scoring. */
  datatype Findings = Findings(
    exifExists: bool,
    edited: Option<string>,
    camera: Option<string>,
    unknown: Option<string>,
    inconsistencies: seq<ExifFlag>,
    photoAge: Option<int>,
    hasDateTime: bool)

  /** The sub-checks `analyze_exif` runs on the tag map. */
  function Gather(tags: Tags, now: Timestamp, cal: Calendar): Findings {
    Findings(
      exifExists := |tags| > 0,
      edited := CheckEditingSoftware(tags),
      camera := CheckMobileCamera(tags),
      unknown := CheckAnySoftware(tags),
      inconsistencies := InconsistencyFlags(tags),
      photoAge := PhotoAgeDays(tags, now, cal),
      hasDateTime := "DateTime" in tags)
  }

  type Contribution = Risk.Contribution<ExifFlag>

  const NOTHING: Contribution := Risk.Contribution(0.0, [])

  /** The edited-after-capture verdict needs a mobile camera model that is not empty. */
  predicate MobileModelKnown(f: Findings) {
    f.camera.Some? && f.camera.value != ""
  }

  /** `if photo_age and photo_age > 90`: an age of 0 is falsy. */
  predicate IsOld(age: Option<int>) {
    age.Some? && age.value != 0 && age.value > 90
  }

  function AbsenceStep(f: Findings): Contribution {
    if !f.exifExists then Risk.Contribution(0.4, [NoExifData]) else NOTHING
  }

  /** A known editor outranks the two unknown-software verdicts. */
  function SoftwareStep(f: Findings): Contribution {
    if f.edited.Some? then Risk.Contribution(0.5, [KnownEditingSoftware])
    else if f.unknown.None? then NOTHING
    else if MobileModelKnown(f) then Risk.Contribution(0.6, [PostCaptureEditingDetected])
    else Risk.Contribution(0.3, [UnknownSoftwareDetected])
  }

  /** However many inconsistencies there are, they weigh 0.25 together. */
  function InconsistencyStep(f: Findings): Contribution {
    if f.inconsistencies != [] then Risk.Contribution(0.25, f.inconsistencies) else NOTHING
  }

  /** A flag without risk. */
  function MobileStep(f: Findings): Contribution {
    if f.camera.None? && f.exifExists then Risk.Contribution(0.0, [NotMobileCamera]) else NOTHING
  }

  function AgeStep(f: Findings): Contribution {
    if IsOld(f.photoAge) then Risk.Contribution(0.1, [OldPhoto]) else NOTHING
  }

  function DateTimeStep(f: Findings): Contribution {
    if f.exifExists && !f.hasDateTime then Risk.Contribution(0.2, [MissingDatetime]) else NOTHING
  }

  /** The uncapped sum of the six steps. */
  function TotalRisk(f: Findings): real {
    AbsenceStep(f).risk + SoftwareStep(f).risk + InconsistencyStep(f).risk
    + MobileStep(f).risk + AgeStep(f).risk + DateTimeStep(f).risk
  }

  /** The flags of the six steps, in the order they run. */
  function AllFlags(f: Findings): seq<ExifFlag> {
    AbsenceStep(f).flags + SoftwareStep(f).flags + InconsistencyStep(f).flags
    + MobileStep(f).flags + AgeStep(f).flags + DateTimeStep(f).flags
  }

  datatype ExifStatus = Missing | Present {
    function Name(): string {
      match this
      case Missing => "missing"
      case Present => "present"
    }
  }

  /** The result dictionary of `analyze_exif`. */
  datatype ExifReport = ExifReport(
    exifStatus: ExifStatus,
    exifExists: bool,
    hasEditingSoftware: bool,
    editingSoftware: Option<string>,
    isMobileCamera: bool,
    cameraModel: Option<string>,
    photoAgeDays: Option<int>,
    riskScore: real,
    flags: seq<ExifFlag>,
    assessment: Risk.Assessment,
    hasInconsistencies: bool,
    timestampInconsistency: bool)

  /** The report for the findings. */
  function Report(f: Findings): ExifReport {
    ExifReport(
      exifStatus := if f.exifExists then Present else Missing,
      exifExists := f.exifExists,
      hasEditingSoftware := f.edited.Some? || f.unknown.Some?,
      editingSoftware := if f.edited.Some? then f.edited else f.unknown,
      isMobileCamera := f.camera.Some?,
      cameraModel := if f.exifExists then f.camera else None,
      photoAgeDays := f.photoAge,
      riskScore := TotalRisk(f),
      flags := AllFlags(f),
      assessment := Risk.Grade(TotalRisk(f)),
      hasInconsistencies := f.inconsistencies != [],
      timestampInconsistency := false)
  }

  /** What `analyze_exif` reports for a tag map. */
  function ExifAnalysis(tags: Tags, now: Timestamp, cal: Calendar): ExifReport {
    Report(Gather(tags, now, cal))
  }

  /** The scoring half of `analyze_exif`: adds the risk of each check that
      fires into an uncapped score and appends its flags, step by step. */
  method ScoreFindings(f: Findings) returns (r: ExifReport)
    ensures r == Report(f)
  {
    var riskScore := 0.0;
    var flags: seq<ExifFlag> := [];

    var exifStatus;
    if !f.exifExists {
      riskScore := riskScore + 0.4;
      flags := flags + [NoExifData];
      exifStatus := Missing;
    } else {
      exifStatus := Present;
    }
    assert riskScore == AbsenceStep(f).risk && flags == AbsenceStep(f).flags;

    var softwareName := f.edited;
    var isEdited := softwareName.Some?;
    ghost var before, beforeFlags := riskScore, flags;
    if isEdited {
      riskScore := riskScore + 0.5;
      flags := flags + [KnownEditingSoftware];
    }
    var isMobile := f.camera.Some?;
    if f.unknown.Some? && !isEdited {
      softwareName := f.unknown;
      if isMobile && f.camera.value != "" {
        riskScore := riskScore + 0.6;
        flags := flags + [PostCaptureEditingDetected];
      } else {
        riskScore := riskScore + 0.3;
        flags := flags + [UnknownSoftwareDetected];
      }
    }
    assert riskScore == before + SoftwareStep(f).risk && flags == beforeFlags + SoftwareStep(f).flags;

    before, beforeFlags := riskScore, flags;
    if f.inconsistencies != [] {
      riskScore := riskScore + 0.25;
      flags := flags + f.inconsistencies;
    }
    assert riskScore == before + InconsistencyStep(f).risk && flags == beforeFlags + InconsistencyStep(f).flags;

    before, beforeFlags := riskScore, flags;
    if !isMobile && f.exifExists {
      flags := flags + [NotMobileCamera];
    }
    assert riskScore == before + MobileStep(f).risk && flags == beforeFlags + MobileStep(f).flags;

    before, beforeFlags := riskScore, flags;
    if f.photoAge.Some? && f.photoAge.value != 0 && f.photoAge.value > 90 {
      riskScore := riskScore + 0.1;
      flags := flags + [OldPhoto];
    }
    assert riskScore == before + AgeStep(f).risk && flags == beforeFlags + AgeStep(f).flags;

    before, beforeFlags := riskScore, flags;
    if f.exifExists && !f.hasDateTime {
      riskScore := riskScore + 0.2;
      flags := flags + [MissingDatetime];
    }
    assert riskScore == before + DateTimeStep(f).risk && flags == beforeFlags + DateTimeStep(f).flags;
    assert riskScore == TotalRisk(f) && flags == AllFlags(f);

    var assessment;
    if riskScore >= 0.7 {
      assessment := Risk.HighRisk;
    } else if riskScore >= 0.4 {
      assessment := Risk.MediumRisk;
    } else {
      assessment := Risk.LowRisk;
    }

    r := ExifReport(
      exifStatus := exifStatus,
      exifExists := f.exifExists,
      hasEditingSoftware := isEdited || f.unknown.Some?,
      editingSoftware := softwareName,
      isMobileCamera := isMobile,
      cameraModel := if f.exifExists then f.camera else None,
      photoAgeDays := f.photoAge,
      riskScore := riskScore,
      flags := flags,
      assessment := assessment,
      hasInconsistencies := f.inconsistencies != [],
      timestampInconsistency := false);
  }

  /** `analyze_exif`: runs the sub-checks on the tag map, then scores what
      they found. */
  method AnalyzeExif(tags: Tags, now: Timestamp, cal: Calendar) returns (r: ExifReport)
    ensures r == ExifAnalysis(tags, now, cal)
  {
    var edited := CheckEditingSoftware(tags);
    var camera := CheckMobileCamera(tags);
    var unknown := CheckAnySoftware(tags);
    var hasInconsistencies, inconsistencies := CheckExifInconsistencies(tags);
    var photoAge := PhotoAgeDays(tags, now, cal);
    var f := Findings(|tags| > 0, edited, camera, unknown, inconsistencies, photoAge, "DateTime" in tags);
    r := ScoreFindings(f);
  }
}
