/** The five-step questionnaire: a step counter, the answers so far, and the
    stored record the last step writes for the dashboard. */
module Assessment {
  import opened Common
  import opened Records
  import Dashboard

  const TotalSteps := 5

  /** The record the form starts from: no answers yet, sliders at their defaults. */
  const InitialData := WellnessData("", 5, 7.0, 5, "", 4, 6.0, "", "")

  /** `keyof AssessmentData`. */
  datatype Field = Mood | SleepQuality | SleepHours | StressLevel | ExerciseFrequency
                 | WaterIntake | ScreenTime | WorkBreaks | Posture

  /** A field's value: a string, a whole-number slider, or a half-step slider. */
  datatype Value = Text(text: string) | Whole(whole: int) | Number(number: real)

  /** The value has the type the field is declared with. */
  predicate Fits(f: Field, v: Value)
  {
    match f
    case Mood | ExerciseFrequency | WorkBreaks | Posture => v.Text?
    case SleepQuality | StressLevel | WaterIntake => v.Whole?
    case SleepHours | ScreenTime => v.Number?
  }

  /** `data[field]`. */
  function Get(d: WellnessData, f: Field): (v: Value)
    ensures Fits(f, v)
  {
    match f
    case Mood => Text(d.mood)
    case SleepQuality => Whole(d.sleepQuality)
    case SleepHours => Number(d.sleepHours)
    case StressLevel => Whole(d.stressLevel)
    case ExerciseFrequency => Text(d.exerciseFrequency)
    case WaterIntake => Whole(d.waterIntake)
    case ScreenTime => Number(d.screenTime)
    case WorkBreaks => Text(d.workBreaks)
    case Posture => Text(d.posture)
  }

  /** `{ ...data, [field]: value }`: the named field takes the value and every
      other field keeps its own. */
  function Set(d: WellnessData, f: Field, v: Value): (e: WellnessData)
    requires Fits(f, v)
    ensures Get(e, f) == v
    ensures forall g :: g != f ==> Get(e, g) == Get(d, g)
  {
    match f
    case Mood => d.(mood := v.text)
    case SleepQuality => d.(sleepQuality := v.whole)
    case SleepHours => d.(sleepHours := v.number)
    case StressLevel => d.(stressLevel := v.whole)
    case ExerciseFrequency => d.(exerciseFrequency := v.text)
    case WaterIntake => d.(waterIntake := v.whole)
    case ScreenTime => d.(screenTime := v.number)
    case WorkBreaks => d.(workBreaks := v.text)
    case Posture => d.(posture := v.text)
  }

  /** Two records that agree on every field are the same record, so Set's
      contract determines its result completely. */
  lemma FieldsDetermineRecord(d: WellnessData, e: WellnessData)
    requires forall f :: Get(d, f) == Get(e, f)
    ensures d == e
  {
    assert Get(d, Mood) == Get(e, Mood);
    assert Get(d, SleepQuality) == Get(e, SleepQuality);
    assert Get(d, SleepHours) == Get(e, SleepHours);
    assert Get(d, StressLevel) == Get(e, StressLevel);
    assert Get(d, ExerciseFrequency) == Get(e, ExerciseFrequency);
    assert Get(d, WaterIntake) == Get(e, WaterIntake);
    assert Get(d, ScreenTime) == Get(e, ScreenTime);
    assert Get(d, WorkBreaks) == Get(e, WorkBreaks);
    assert Get(d, Posture) == Get(e, Posture);
  }

  /** A later update of the same field overwrites an earlier one; updates of
      different fields can be applied in either order. */
  lemma {:induction false} SetLastWins(d: WellnessData, f: Field, v: Value, w: Value)
    requires Fits(f, v) && Fits(f, w)
    ensures Set(Set(d, f, v), f, w) == Set(d, f, w)
  {
    var a, b := Set(Set(d, f, v), f, w), Set(d, f, w);
    forall g ensures Get(a, g) == Get(b, g) {
    }
    FieldsDetermineRecord(a, b);
  }

  lemma {:induction false} SetCommutes(d: WellnessData, f: Field, v: Value, g: Field, w: Value)
    requires Fits(f, v) && Fits(g, w) && f != g
    ensures Set(Set(d, f, v), g, w) == Set(Set(d, g, w), f, v)
  {
    var a, b := Set(Set(d, f, v), g, w), Set(Set(d, g, w), f, v);
    forall h ensures Get(a, h) == Get(b, h) {
    }
    FieldsDetermineRecord(a, b);
  }

  /** The values a field's control can produce: one of the listed options,
      or a slider position within its bounds. */
  predicate Offered(f: Field, v: Value)
  {
    match f
    case Mood => v.Text? && v.text in AssessmentMoods
    case SleepQuality => v.Whole? && 1 <= v.whole <= 10
    case SleepHours => v.Number? && 3.0 <= v.number <= 12.0
    case StressLevel => v.Whole? && 1 <= v.whole <= 10
    case ExerciseFrequency => v.Text? && v.text in ExerciseOptions
    case WaterIntake => v.Whole? && 0 <= v.whole <= 15
    case ScreenTime => v.Number? && 0.0 <= v.number <= 16.0
    case WorkBreaks => v.Text? && v.text in BreakOptions
    case Posture => false
  }

  /** Every choice field is unanswered or one of its options, posture is
      never answered, and the sliders are within bounds. */
  predicate FormValues(d: WellnessData)
  {
    && (d.mood == "" || d.mood in AssessmentMoods)
    && (d.exerciseFrequency == "" || d.exerciseFrequency in ExerciseOptions)
    && (d.workBreaks == "" || d.workBreaks in BreakOptions)
    && d.posture == ""
    && SlidersInRange(d)
  }

  /** The record written on completion: every question with an option list
      answered, sliders within bounds. */
  predicate Complete(d: WellnessData)
  {
    && d.mood in AssessmentMoods
    && d.exerciseFrequency in ExerciseOptions
    && d.workBreaks in BreakOptions
    && SlidersInRange(d)
  }

  /** An update a control can produce keeps the record within the form's values. */
  lemma OfferedKeepsFormValues(d: WellnessData, f: Field, v: Value)
    requires FormValues(d) && Offered(f, v)
    ensures Fits(f, v) && FormValues(Set(d, f, v))
  {
  }

  /** A completed record is one the dashboard scores within 13..100, with a
      recognised mood. */
  lemma CompleteRecordScores(d: WellnessData)
    requires Complete(d)
    ensures 13 <= Dashboard.Score(d) <= 100
    ensures Dashboard.MoodPoints(d.mood) >= 4
  {
    Dashboard.ScoreInRange(d);
  }

  /** `(step / totalSteps) * 100`. */
  function Progress(step: int): (p: real)
    requires 1 <= step <= TotalSteps
    ensures 20.0 <= p <= 100.0
    ensures p == 20.0 * step as real
    ensures p == 100.0 <==> step == TotalSteps
  {
    step as real / TotalSteps as real * 100.0
  }

  /** Where a button press leaves the user. */
  datatype Destination = Stay | ToDashboard | ToHome

  class AssessmentPage {
    var step: int
    var data: WellnessData
    /** The "wellnessData" storage entry. */
    var stored: Option<WellnessData>

    /** The step stays within 1..5; the answers are values the controls
        offer; every question before the current step that blocks Next has
        been answered. */
    ghost predicate Valid()
      reads this
    {
      && 1 <= step <= TotalSteps
      && FormValues(data)
      && (step > 1 ==> data.mood != "")
      && (step > 4 ==> data.exerciseFrequency != "")
    }

    constructor(store: Option<WellnessData>)
      ensures Valid()
      ensures step == 1 && data == InitialData && stored == store
    {
      step := 1;
      data := InitialData;
      stored := store;
    }

    /** The disabled state of the Next button: never on steps 2 and 3, and
        on the last step of a valid page only until the record is complete. */
    predicate NextDisabled()
      reads this
      ensures step == 2 || step == 3 ==> !NextDisabled()
      ensures Valid() && step == TotalSteps ==> (NextDisabled() <==> !Complete(data))
    {
      || (step == 1 && data.mood == "")
      || (step == 4 && data.exerciseFrequency == "")
      || (step == 5 && data.workBreaks == "")
    }

    /** updateData: the named field takes the value, nothing else changes. */
    method UpdateData(f: Field, v: Value)
      requires Fits(f, v)
      modifies this`data
      ensures data == Set(old(data), f, v)
      ensures old(Valid()) && Offered(f, v) ==> Valid()
    {
      data := Set(data, f, v);
    }

    /** handleNext: advance, or on the last step store the record and leave
      for the dashboard. */
    method HandleNext() returns (dest: Destination)
      requires 1 <= step <= TotalSteps
      modifies this`step, this`stored
      ensures 1 <= step <= TotalSteps
      ensures old(step) < TotalSteps ==> step == old(step) + 1 && stored == old(stored) && dest == Stay
      ensures old(step) == TotalSteps ==> step == old(step) && stored == Some(data) && dest == ToDashboard
    {
      if step < TotalSteps {
        step := step + 1;
        dest := Stay;
      } else {
        stored := Some(data);
        dest := ToDashboard;
      }
    }

    /** handleBack: go back a step, or from the first step leave for home. */
    method HandleBack() returns (dest: Destination)
      requires Valid()
      modifies this`step
      ensures Valid()
      ensures old(step) > 1 ==> step == old(step) - 1 && dest == Stay
      ensures old(step) == 1 ==> step == 1 && dest == ToHome
    {
      if step > 1 {
        step := step - 1;
        dest := Stay;
      } else {
        dest := ToHome;
      }
    }

    /** A click on Next: nothing while the button is disabled, otherwise
        handleNext. Only a complete record is ever stored. */
    method PressNext() returns (dest: Destination)
      requires Valid()
      modifies this`step, this`stored
      ensures Valid()
      ensures old(NextDisabled()) ==> step == old(step) && stored == old(stored) && dest == Stay
      ensures !old(NextDisabled()) && old(step) < TotalSteps ==>
        step == old(step) + 1 && stored == old(stored) && dest == Stay
      ensures !old(NextDisabled()) && old(step) == TotalSteps ==>
        step == TotalSteps && stored == Some(data) && dest == ToDashboard
      ensures dest == ToDashboard ==> Complete(data)
    {
      if NextDisabled() {
        return Stay;
      }
      dest := HandleNext();
    }
  }
}
