/** The two plain records the pages exchange through browser storage, and the
    option lists their forms offer. */
module Records {

  /** One completed questionnaire (the "wellnessData" storage key). The
      numeric fields are JavaScript numbers; the sliders give whole numbers
      for sleep quality, stress and water and half-hour steps for sleep and
      screen time. */
  datatype WellnessData = WellnessData(
    mood: string,
    sleepQuality: int,
    sleepHours: real,
    stressLevel: int,
    exerciseFrequency: string,
    waterIntake: int,
    screenTime: real,
    workBreaks: string,
    posture: string)

  /** One momentary self-report (an element of the "checkIns" storage list).
      The timestamp is an opaque ISO-8601 string. */
  datatype CheckIn = CheckIn(
    timestamp: string,
    mood: string,
    focusLevel: int,
    stressLevel: int,
    activity: string,
    energy: int)

  /** Urgency tag of a recommendation ("high" | "medium" | "low"). */
  datatype Priority = High | Medium | Low

  const AssessmentMoods: seq<string> := ["Excellent", "Good", "Okay", "Not Great", "Poor"]
  const ExerciseOptions: seq<string> := ["Daily", "3-4 times per week", "1-2 times per week", "Rarely", "Never"]
  const BreakOptions: seq<string> := ["Yes, regularly", "Sometimes", "Rarely", "No"]

  const CheckInMoods: seq<string> := ["Excellent", "Good", "Neutral", "Stressed", "Poor"]
  const Activities: seq<string> := ["Working", "Exercising", "Resting", "Socializing"]

  /** The slider ranges of the questionnaire. */
  predicate SlidersInRange(d: WellnessData)
  {
    && 1 <= d.sleepQuality <= 10
    && 3.0 <= d.sleepHours <= 12.0
    && 1 <= d.stressLevel <= 10
    && 0 <= d.waterIntake <= 15
    && 0.0 <= d.screenTime <= 16.0
  }

  /** The slider ranges of the check-in form. */
  predicate CheckInInRange(c: CheckIn)
  {
    1 <= c.focusLevel <= 10 && 1 <= c.stressLevel <= 10 && 1 <= c.energy <= 10
  }
}
