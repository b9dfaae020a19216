/** The three-way risk assessment shared by the image-metadata layer and
    the combined score: at least 0.7 is high risk, at least 0.4 medium
    risk, anything lower low risk. */
module Risk {

  const HIGH_THRESHOLD: real := 0.7
  const MEDIUM_THRESHOLD: real := 0.4

  datatype Assessment = LowRisk | MediumRisk | HighRisk {

    /** The text stored and returned for the assessment. */
    function Name(): string {
      match this
      case LowRisk => "low_risk"
      case MediumRisk => "medium_risk"
      case HighRisk => "high_risk"
    }

    /** The rank of the assessment: low 0, medium 1, high 2. */
    function Level(): nat {
      match this
      case LowRisk => 0
      case MediumRisk => 1
      case HighRisk => 2
    }
  }

  /** The assessment of a risk score. */
  function Grade(score: real): (a: Assessment)
    ensures a == HighRisk <==> score >= HIGH_THRESHOLD
    ensures a == MediumRisk <==> MEDIUM_THRESHOLD <= score < HIGH_THRESHOLD
    ensures a == LowRisk <==> score < MEDIUM_THRESHOLD
  {
    if score >= 0.7 then HighRisk
    else if score >= 0.4 then MediumRisk
    else LowRisk
  }

  /** A higher score never gets a milder assessment. */
  lemma GradeMonotone(a: real, b: real)
    requires a <= b
    ensures Grade(a).Level() <= Grade(b).Level()
  {
  }

  /** What one scoring step of a layer adds: risk, and the flags that
      explain it. */
  datatype Contribution<F> = Contribution(risk: real, flags: seq<F>)

  /** The total of the weights of a list of flags. */
  function Weight<F>(flags: seq<F>, weight: F -> real): real {
    if flags == [] then 0.0 else weight(flags[0]) + Weight(flags[1..], weight)
  }

  /** The weight of a concatenation is the sum of the weights of its parts. */
  lemma {:induction false} WeightOfConcat<F>(a: seq<F>, b: seq<F>, weight: F -> real)
    ensures Weight(a + b, weight) == Weight(a, weight) + Weight(b, weight)
  {
    if a == [] {
      assert a + b == b;
    } else {
      WeightOfConcat(a[1..], b, weight);
      assert (a + b)[1..] == a[1..] + b;
    }
  }

  /** A single flag weighs its own weight. */
  lemma WeightOfOne<F>(x: F, weight: F -> real)
    ensures Weight([x], weight) == weight(x)
  {
    assert [x][1..] == [];
  }

  /** `min(x, 1.0)`. */
  function Cap(x: real): (y: real)
    ensures y <= 1.0
    ensures y == x || y == 1.0
    ensures x <= 1.0 ==> y == x
  {
    if 1.0 < x then 1.0 else x
  }
}
