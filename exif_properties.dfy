/** What `analyze_exif` promises about its report, stated over a tag map. */
module ExifProperties {
  import opened Wrappers
  import opened Strings
  import opened ExifService
  import Risk

  // ---------------------------------------------------------------------
  // Facts about the sub-checks
  // ---------------------------------------------------------------------

  /** Nothing is found in an empty tag map. */
  lemma {:induction false} NoTagsNoHit<T>(fields: seq<string>, probe: string -> Option<T>)
    ensures FirstHit(map[], fields, probe) == None
  {
    if fields != [] {
      NoTagsNoHit(fields[1..], probe);
    }
  }

  /** A value that names a mobile brand is not empty, so the mobile check
      never returns an empty model. */
  lemma MobileMatchNotEmpty(tags: Tags)
    ensures CheckMobileCamera(tags).Some? ==> CheckMobileCamera(tags).value != ""
  {
    if CheckMobileCamera(tags).Some? {
      MobileCameraIsFirstMatch(tags);
      var i :| 0 <= i < |MODEL_FIELDS| && MODEL_FIELDS[i] in tags
                && CheckMobileCamera(tags).value == tags[MODEL_FIELDS[i]]
                && NamesMobileBrand(tags[MODEL_FIELDS[i]]);
      var v := tags[MODEL_FIELDS[i]];
      var k, j :| 0 <= k < |MOBILE_BRANDS| && 0 <= j <= |Lower(v)| && OccursAt(Lower(v), MOBILE_BRANDS[k], j);
      assert |MOBILE_BRANDS[k]| > 0;
    }
  }

  /** What the gathered findings always satisfy: an empty tag map finds
      nothing, a mobile match is never empty, and the inconsistency list
      holds only inconsistency flags. */
  predicate Sound(f: Findings) {
    && (!f.exifExists ==>
          f.edited.None? && f.camera.None? && f.unknown.None? && f.inconsistencies == []
          && f.photoAge.None? && !f.hasDateTime)
    && (f.camera.Some? ==> f.camera.value != "")
    && (forall x | x in f.inconsistencies :: x.IsInconsistency())
    && InCheckOrder(f.inconsistencies)
  }

  lemma GatherIsSound(tags: Tags, now: Timestamp, cal: Calendar)
    ensures Sound(Gather(tags, now, cal))
  {
    MobileMatchNotEmpty(tags);
    InconsistencyFlagsExact(tags);
    if |tags| == 0 {
      assert tags == map[];
      NoTagsNoHit(EDITOR_FIELDS, EditorProbe);
      NoTagsNoHit(MODEL_FIELDS, MobileProbe);
      NoTagsNoHit(ANY_SOFTWARE_FIELDS, UnknownSoftwareProbe);
      NoTagsNoHit(DATETIME_FIELDS, cal.parse);
    }
  }

  // ---------------------------------------------------------------------
  // The empty tag map
  // ---------------------------------------------------------------------

  /** A photo without EXIF data: status missing, the single flag
      no_exif_data, risk 0.4, medium risk, not a mobile camera. */
  lemma EmptyTagsReport(now: Timestamp, cal: Calendar)
    ensures ExifAnalysis(map[], now, cal) == ExifReport(
              exifStatus := Missing, exifExists := false, hasEditingSoftware := false,
              editingSoftware := None, isMobileCamera := false, cameraModel := None,
              photoAgeDays := None, riskScore := 0.4, flags := [NoExifData],
              assessment := Risk.MediumRisk, hasInconsistencies := false,
              timestampInconsistency := false)
  {
    GatherIsSound(map[], now, cal);
  }

  // ---------------------------------------------------------------------
  // The software verdicts
  // ---------------------------------------------------------------------

  lemma VerdictsOfFindings(f: Findings)
    requires Sound(f)
    ensures KnownEditingSoftware in AllFlags(f) <==> f.edited.Some?
    ensures PostCaptureEditingDetected in AllFlags(f) <==> f.edited.None? && f.unknown.Some? && f.camera.Some?
    ensures UnknownSoftwareDetected in AllFlags(f) <==> f.edited.None? && f.unknown.Some? && f.camera.None?
  {
    assert forall x | x in InconsistencyStep(f).flags :: !x.IsSoftwareVerdict();
  }

  /** Which software verdict the report carries, each exactly under its
      conditions: a known editor wins; otherwise an unknown value counts as
      editing after capture when a mobile camera is recognised, and as
      unknown software when not. */
  lemma SoftwareVerdicts(tags: Tags, now: Timestamp, cal: Calendar)
    ensures (KnownEditingSoftware in ExifAnalysis(tags, now, cal).flags)
              <==> CheckEditingSoftware(tags).Some?
    ensures (PostCaptureEditingDetected in ExifAnalysis(tags, now, cal).flags)
              <==> CheckEditingSoftware(tags).None? && CheckAnySoftware(tags).Some? && CheckMobileCamera(tags).Some?
    ensures (UnknownSoftwareDetected in ExifAnalysis(tags, now, cal).flags)
              <==> CheckEditingSoftware(tags).None? && CheckAnySoftware(tags).Some? && CheckMobileCamera(tags).None?
  {
    GatherIsSound(tags, now, cal);
    VerdictsOfFindings(Gather(tags, now, cal));
  }

  /** At most one of the three software verdicts is raised. */
  lemma OneSoftwareVerdict(tags: Tags, now: Timestamp, cal: Calendar)
    ensures forall i, j | 0 <= i < j < |ExifAnalysis(tags, now, cal).flags| ::
              !(ExifAnalysis(tags, now, cal).flags[i].IsSoftwareVerdict()
                && ExifAnalysis(tags, now, cal).flags[j].IsSoftwareVerdict())
  {
    GatherIsSound(tags, now, cal);
    var f := Gather(tags, now, cal);
    OrderOfFindings(f);
    forall i, j | 0 <= i < j < |AllFlags(f)|
      ensures !(AllFlags(f)[i].IsSoftwareVerdict() && AllFlags(f)[j].IsSoftwareVerdict())
    {
      assert AllFlags(f)[i] in AllFlags(f) && AllFlags(f)[j] in AllFlags(f);
      VerdictsOfFindings(f);
    }
  }

  // ---------------------------------------------------------------------
  // The order of the flags
  // ---------------------------------------------------------------------

  /** Every flag of `flags` comes before the check numbered `k`. */
  predicate Below(flags: seq<ExifFlag>, k: nat) {
    forall x | x in flags :: x.Ordinal() < k
  }

  /** Every flag of `flags` comes from the check numbered `k` or later. */
  predicate AtLeast(flags: seq<ExifFlag>, k: nat) {
    forall x | x in flags :: k <= x.Ordinal()
  }

  lemma {:induction false} OrderedConcat(a: seq<ExifFlag>, b: seq<ExifFlag>, k: nat)
    requires InCheckOrder(a) && InCheckOrder(b) && Below(a, k) && AtLeast(b, k)
    ensures InCheckOrder(a + b)
  {
    forall i, j | 0 <= i < j < |a + b|
      ensures (a + b)[i].Ordinal() < (a + b)[j].Ordinal()
    {
      if j < |a| {
        assert (a + b)[i] == a[i] && (a + b)[j] == a[j];
      } else if i < |a| {
        assert (a + b)[i] == a[i] && (a + b)[j] == b[j - |a|];
        assert a[i] in a && b[j - |a|] in b;
      } else {
        assert (a + b)[i] == b[i - |a|] && (a + b)[j] == b[j - |a|];
      }
    }
  }

  /** Every flag of `flags` comes from a check numbered `lo` to `hi - 1`. */
  predicate InRange(flags: seq<ExifFlag>, lo: nat, hi: nat) {
    forall x | x in flags :: lo <= x.Ordinal() < hi
  }

  /** Six steps whose flags are each ordered and come from consecutive
      ranges of checks give an ordered list. */
  lemma OrderedSix(a: seq<ExifFlag>, s: seq<ExifFlag>, c: seq<ExifFlag>,
                   m: seq<ExifFlag>, g: seq<ExifFlag>, d: seq<ExifFlag>)
    requires InCheckOrder(a) && InCheckOrder(s) && InCheckOrder(c)
    requires InCheckOrder(m) && InCheckOrder(g) && InCheckOrder(d)
    requires InRange(a, 0, 1) && InRange(s, 1, 4) && InRange(c, 4, 7)
    requires InRange(m, 7, 8) && InRange(g, 8, 9) && InRange(d, 9, 10)
    ensures InCheckOrder(a + s + c + m + g + d)
  {
    OrderedConcat(a, s, 1);
    assert Below(a + s, 4);
    OrderedConcat(a + s, c, 4);
    assert Below(a + s + c, 7);
    OrderedConcat(a + s + c, m, 7);
    assert Below(a + s + c + m, 8);
    OrderedConcat(a + s + c + m, g, 8);
    assert Below(a + s + c + m + g, 9);
    OrderedConcat(a + s + c + m + g, d, 9);
  }

  lemma OrderOfFindings(f: Findings)
    requires Sound(f)
    ensures InCheckOrder(AllFlags(f))
  {
    OrderedSix(AbsenceStep(f).flags, SoftwareStep(f).flags, InconsistencyStep(f).flags,
               MobileStep(f).flags, AgeStep(f).flags, DateTimeStep(f).flags);
  }

  /** The flags come in the order the checks run and none twice; in
      particular the inconsistency flags keep their fixed order. */
  lemma FlagsInCheckOrder(tags: Tags, now: Timestamp, cal: Calendar)
    ensures InCheckOrder(ExifAnalysis(tags, now, cal).flags)
  {
    GatherIsSound(tags, now, cal);
    OrderOfFindings(Gather(tags, now, cal));
  }

  // ---------------------------------------------------------------------
  // The risk score
  // ---------------------------------------------------------------------

  /** The risk a single flag stands for; the inconsistency flags stand
      together for one weight, and not_mobile_camera for none. */
  function FlagWeight(x: ExifFlag): real {
    match x
    case NoExifData => 0.4
    case KnownEditingSoftware => 0.5
    case PostCaptureEditingDetected => 0.6
    case UnknownSoftwareDetected => 0.3
    case OldPhoto => 0.1
    case MissingDatetime => 0.2
    case _ => 0.0
  }

  /** The total weight of a list of flags. */
  function WeightOfFlags(flags: seq<ExifFlag>): real {
    Risk.Weight(flags, FlagWeight)
  }

  predicate HasInconsistencyFlag(flags: seq<ExifFlag>) {
    SoftwareWithoutCameraModel in flags || IncompleteCameraData in flags || InconsistentTimestamps in flags
  }

  lemma {:induction false} InconsistenciesWeighNothing(flags: seq<ExifFlag>)
    requires forall x | x in flags :: x.IsInconsistency()
    ensures WeightOfFlags(flags) == 0.0
  {
    if flags != [] {
      assert flags[0] in flags;
      assert forall x | x in flags[1..] :: x in flags;
      InconsistenciesWeighNothing(flags[1..]);
    }
  }

  lemma WeightOfSix(a: seq<ExifFlag>, s: seq<ExifFlag>, c: seq<ExifFlag>,
                    m: seq<ExifFlag>, g: seq<ExifFlag>, d: seq<ExifFlag>)
    ensures WeightOfFlags(a + s + c + m + g + d) ==
              WeightOfFlags(a) + WeightOfFlags(s) + WeightOfFlags(c)
              + WeightOfFlags(m) + WeightOfFlags(g) + WeightOfFlags(d)
  {
    Risk.WeightOfConcat(a, s, FlagWeight);
    Risk.WeightOfConcat(a + s, c, FlagWeight);
    Risk.WeightOfConcat(a + s + c, m, FlagWeight);
    Risk.WeightOfConcat(a + s + c + m, g, FlagWeight);
    Risk.WeightOfConcat(a + s + c + m + g, d, FlagWeight);
  }

  /** Each step's flags weigh what the step adds, except that the
      inconsistency flags weigh nothing on their own. */
  lemma StepWeights(f: Findings)
    requires Sound(f)
    ensures WeightOfFlags(AbsenceStep(f).flags) == AbsenceStep(f).risk
    ensures WeightOfFlags(SoftwareStep(f).flags) == SoftwareStep(f).risk
    ensures WeightOfFlags(InconsistencyStep(f).flags) == 0.0
    ensures WeightOfFlags(MobileStep(f).flags) == MobileStep(f).risk
    ensures WeightOfFlags(AgeStep(f).flags) == AgeStep(f).risk
    ensures WeightOfFlags(DateTimeStep(f).flags) == DateTimeStep(f).risk
  {
    InconsistenciesWeighNothing(f.inconsistencies);
    Risk.WeightOfOne(NoExifData, FlagWeight);
    Risk.WeightOfOne(KnownEditingSoftware, FlagWeight);
    Risk.WeightOfOne(PostCaptureEditingDetected, FlagWeight);
    Risk.WeightOfOne(UnknownSoftwareDetected, FlagWeight);
    Risk.WeightOfOne(NotMobileCamera, FlagWeight);
    Risk.WeightOfOne(OldPhoto, FlagWeight);
    Risk.WeightOfOne(MissingDatetime, FlagWeight);
  }

  lemma WeightsOfFindings(f: Findings)
    requires Sound(f)
    ensures TotalRisk(f) == WeightOfFlags(AllFlags(f)) + (if HasInconsistencyFlag(AllFlags(f)) then 0.25 else 0.0)
    ensures (f.inconsistencies != []) == HasInconsistencyFlag(AllFlags(f))
  {
    StepWeights(f);
    var a, s, c := AbsenceStep(f).flags, SoftwareStep(f).flags, InconsistencyStep(f).flags;
    var m, g, d := MobileStep(f).flags, AgeStep(f).flags, DateTimeStep(f).flags;
    WeightOfSix(a, s, c, m, g, d);
    assert !HasInconsistencyFlag(a);
    assert !HasInconsistencyFlag(s);
    assert !HasInconsistencyFlag(m);
    assert !HasInconsistencyFlag(g);
    assert !HasInconsistencyFlag(d);
    assert HasInconsistencyFlag(c) <==> f.inconsistencies != [] by {
      if f.inconsistencies != [] {
        assert f.inconsistencies[0] in f.inconsistencies;
      }
    }
    InconsistencyFlagOfSix(a, s, c, m, g, d);
  }

  lemma InconsistencyFlagOfSix(a: seq<ExifFlag>, s: seq<ExifFlag>, c: seq<ExifFlag>,
                               m: seq<ExifFlag>, g: seq<ExifFlag>, d: seq<ExifFlag>)
    requires !HasInconsistencyFlag(a) && !HasInconsistencyFlag(s) && !HasInconsistencyFlag(m)
    requires !HasInconsistencyFlag(g) && !HasInconsistencyFlag(d)
    ensures HasInconsistencyFlag(a + s + c + m + g + d) == HasInconsistencyFlag(c)
  {
  }

  /** The score can be recomputed from the flag list alone: the sum of the
      weights of the flags, plus 0.25 once if any inconsistency flag is
      present, however many there are. */
  lemma RiskFromFlags(tags: Tags, now: Timestamp, cal: Calendar)
    ensures ExifAnalysis(tags, now, cal).riskScore ==
              WeightOfFlags(ExifAnalysis(tags, now, cal).flags)
              + (if HasInconsistencyFlag(ExifAnalysis(tags, now, cal).flags) then 0.25 else 0.0)
    ensures ExifAnalysis(tags, now, cal).hasInconsistencies == HasInconsistencyFlag(ExifAnalysis(tags, now, cal).flags)
  {
    GatherIsSound(tags, now, cal);
    WeightsOfFindings(Gather(tags, now, cal));
  }

  /** The score is never negative and never above 1.15: nothing caps it. */
  lemma RiskBounds(tags: Tags, now: Timestamp, cal: Calendar)
    ensures 0.0 <= ExifAnalysis(tags, now, cal).riskScore <= 1.15
  {
    GatherIsSound(tags, now, cal);
  }

  /** The assessment grades the uncapped score: at least 0.7 is high risk,
      at least 0.4 medium risk, anything lower low risk. */
  lemma AssessmentOfScore(tags: Tags, now: Timestamp, cal: Calendar)
    ensures var r := ExifAnalysis(tags, now, cal);
            && r.assessment == Risk.Grade(r.riskScore)
            && (r.assessment == Risk.HighRisk <==> r.riskScore >= 0.7)
            && (r.assessment == Risk.MediumRisk <==> 0.4 <= r.riskScore < 0.7)
            && (r.assessment == Risk.LowRisk <==> r.riskScore < 0.4)
  {
  }

  // ---------------------------------------------------------------------
  // Two photos
  // ---------------------------------------------------------------------

  /** `sub in s` fails when `sub` is longer than `s`. */
  lemma TooLongToOccur(s: string, sub: string)
    requires |s| < |sub|
    ensures !Contains(s, sub)
  {
  }

  /** An unknown tool on a Samsung with neither Model nor DateTime, and
      creation timestamps, in the EXIF `YYYY:MM:DD HH:MM:SS` form, five
      seconds apart. */
  const MAXIMAL_TAGS: Tags :=
    map["Software" := "xyz", "Make" := "samsung",
        "DateTimeOriginal" := "2023:01:01 10:00:00", "DateTimeDigitized" := "2023:01:01 10:00:05"]

  lemma MaximalTagsSoftware()
    ensures CheckEditingSoftware(MAXIMAL_TAGS) == None
    ensures CheckAnySoftware(MAXIMAL_TAGS) == Some("xyz")
  {
    assert Lower("xyz") == "xyz";
    forall k | 0 <= k < |EDITING_SOFTWARE| ensures !Contains("xyz", EDITING_SOFTWARE[k]) {
      TooLongToOccur("xyz", EDITING_SOFTWARE[k]);
    }
    forall k | 0 <= k < |SAFE_SOFTWARE| ensures !Contains("xyz", SAFE_SOFTWARE[k]) {
      if k == 0 {
        assert SAFE_SOFTWARE[k][0] == 'i' && "xyz"[0..3][0] == 'x';
      } else {
        TooLongToOccur("xyz", SAFE_SOFTWARE[k]);
      }
    }
  }

  lemma MaximalTagsCamera()
    ensures CheckMobileCamera(MAXIMAL_TAGS) == Some("samsung")
  {
    assert Lower("samsung") == "samsung";
    assert OccursAt(Lower("samsung"), MOBILE_BRANDS[1], 0);
  }

  lemma MaximalTagsRest(now: Timestamp, cal: Calendar)
    requires cal.parse("2023:01:01 10:00:00").Some? && cal.daysBetween(now, cal.parse("2023:01:01 10:00:00").value) == 100
    ensures InconsistencyFlags(MAXIMAL_TAGS) == [SoftwareWithoutCameraModel, InconsistentTimestamps]
    ensures PhotoAgeDays(MAXIMAL_TAGS, now, cal) == Some(100)
    ensures "DateTime" !in MAXIMAL_TAGS && |MAXIMAL_TAGS| > 0
  {
    assert "Software" in MAXIMAL_TAGS;
  }

  /** The largest score is reached, and it is above 1.0: an unknown tool
      on a Samsung counts as editing after capture, both inconsistencies
      that need no DateTime fire, the photo is old and DateTime is
      missing. */
  lemma RiskReachesMaximum(now: Timestamp, cal: Calendar)
    requires cal.parse("2023:01:01 10:00:00").Some? && cal.daysBetween(now, cal.parse("2023:01:01 10:00:00").value) == 100
    ensures ExifAnalysis(MAXIMAL_TAGS, now, cal).riskScore == 1.15
  {
    MaximalTagsSoftware();
    MaximalTagsCamera();
    MaximalTagsRest(now, cal);
    ScoreOfMaximum(Gather(MAXIMAL_TAGS, now, cal));
  }

  lemma ScoreOfMaximum(f: Findings)
    requires f.exifExists && f.edited.None? && f.unknown.Some? && f.camera == Some("samsung")
    requires f.inconsistencies != [] && f.photoAge == Some(100) && !f.hasDateTime
    ensures TotalRisk(f) == 1.15
  {
  }

  /** A Photoshop export of an iPhone photo. */
  const EDITED_IPHONE_TAGS: Tags := map["Software" := "Adobe Photoshop CC", "Model" := "iPhone 13"]

  lemma EditedIPhoneEditor()
    ensures CheckEditingSoftware(EDITED_IPHONE_TAGS) == Some("Adobe Photoshop CC")
  {
    assert Lower("Adobe Photoshop CC") == "adobe photoshop cc";
    assert OccursAt(Lower("Adobe Photoshop CC"), EDITING_SOFTWARE[0], 6);
  }

  lemma EditedIPhoneCamera()
    ensures CheckMobileCamera(EDITED_IPHONE_TAGS) == Some("iPhone 13")
  {
    assert Lower("iPhone 13") == "iphone 13";
    assert OccursAt(Lower("iPhone 13"), MOBILE_BRANDS[0], 0);
  }

  lemma EditedIPhoneRest(now: Timestamp, cal: Calendar)
    ensures InconsistencyFlags(EDITED_IPHONE_TAGS) == []
    ensures PhotoAgeDays(EDITED_IPHONE_TAGS, now, cal) == None
    ensures "DateTime" !in EDITED_IPHONE_TAGS && |EDITED_IPHONE_TAGS| > 0
  {
    assert "Software" in EDITED_IPHONE_TAGS;
  }

  /** An edited iPhone photo: the known editor is reported by its own name,
      and together with the missing DateTime the photo is high risk. */
  lemma EditedIPhonePhoto(now: Timestamp, cal: Calendar)
    ensures var r := ExifAnalysis(EDITED_IPHONE_TAGS, now, cal);
            && r.flags == [KnownEditingSoftware, MissingDatetime]
            && r.isMobileCamera
            && r.editingSoftware == Some("Adobe Photoshop CC")
            && r.riskScore == 0.7
            && r.assessment == Risk.HighRisk
  {
    EditedIPhoneEditor();
    EditedIPhoneCamera();
    EditedIPhoneRest(now, cal);
    ReportOfEditedIPhone(Gather(EDITED_IPHONE_TAGS, now, cal));
  }

  lemma ReportOfEditedIPhone(f: Findings)
    requires f.exifExists && f.edited == Some("Adobe Photoshop CC") && f.camera == Some("iPhone 13")
    requires f.inconsistencies == [] && f.photoAge.None? && !f.hasDateTime
    ensures Report(f).flags == [KnownEditingSoftware, MissingDatetime]
    ensures Report(f).riskScore == 0.7 && Report(f).assessment == Risk.HighRisk
  {
  }
}
