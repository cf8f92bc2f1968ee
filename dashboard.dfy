/** The wellness dashboard: a composite score out of seven bounded
    contributions, its label and colour buckets, and the seven independent
    recommendation rules over the stored questionnaire record. */
module Dashboard {
  import opened Common
  import opened Records

  // ---------------------------------------------------------------------
  // Score contributions

  /** Mood by table lookup; a mood missing from the table adds nothing. */
  function MoodPoints(mood: string): (p: int)
    ensures 0 <= p <= 20
    ensures p != 0 <==> mood in AssessmentMoods
    ensures p % 4 == 0
  {
    match mood
    case "Excellent" => 20
    case "Good" => 16
    case "Okay" => 12
    case "Not Great" => 8
    case "Poor" => 4
    case _ => 0
  }

  /** Sleep quality scaled linearly to at most 15 points. */
  function SleepQualityPoints(quality: int): (p: real)
    ensures 1 <= quality <= 10 ==> 1.5 <= p <= 15.0
    ensures p * 10.0 == quality as real * 15.0
  {
    (quality as real / 10.0) * 15.0
  }

  /** 15 points for 7 to 9 hours, both ends included, 10 otherwise. */
  function SleepHoursPoints(hours: real): (p: real)
    ensures p == 10.0 || p == 15.0
    ensures p == 15.0 <==> 7.0 <= hours <= 9.0
  {
    if hours >= 7.0 && hours <= 9.0 then 15.0 else 10.0
  }

  /** Stress scored inversely: level 1 gives 15 points, level 10 gives 1.5. */
  function StressPoints(level: int): (p: real)
    ensures 1 <= level <= 10 ==> 1.5 <= p <= 15.0
    ensures p * 10.0 == (11 - level) as real * 15.0
  {
    ((11 - level) as real / 10.0) * 15.0
  }

  /** Exercise by table lookup; "Never" and any unknown answer add nothing. */
  function ExercisePoints(frequency: string): (p: int)
    ensures 0 <= p <= 15
    ensures p != 0 <==> frequency in ExerciseOptions && frequency != "Never"
  {
    match frequency
    case "Daily" => 15
    case "3-4 times per week" => 12
    case "1-2 times per week" => 8
    case "Rarely" => 4
    case "Never" => 0
    case _ => 0
  }

  /** Water scaled so that 8 glasses reach the cap of 10 points. */
  function WaterPoints(glasses: int): (p: real)
    ensures p <= 10.0
    ensures glasses >= 0 ==> p >= 0.0
    ensures p == 10.0 <==> glasses >= 8
  {
    var scaled := (glasses as real / 8.0) * 10.0;
    if scaled < 10.0 then scaled else 10.0
  }

  /** Screen time scored inversely, floored so that 8 hours or more give 0. */
  function ScreenPoints(hours: real): (p: real)
    ensures p >= 0.0
    ensures hours >= 0.0 ==> p <= 10.0
    ensures p == 0.0 <==> hours >= 8.0
  {
    var scaled := 10.0 - (hours / 8.0) * 10.0;
    if scaled > 0.0 then scaled else 0.0
  }

  /** The unrounded score: the seven contributions added up. Their maxima
      total exactly 100, and on the slider ranges the sum is at least 13. */
  function RawScore(d: WellnessData): (raw: real)
    ensures SlidersInRange(d) ==> 13.0 <= raw <= 100.0
  {
    MoodPoints(d.mood) as real
    + SleepQualityPoints(d.sleepQuality)
    + SleepHoursPoints(d.sleepHours)
    + StressPoints(d.stressLevel)
    + ExercisePoints(d.exerciseFrequency) as real
    + WaterPoints(d.waterIntake)
    + ScreenPoints(d.screenTime)
  }

  /** calculateScore: the contributions are summed exactly and the sum is
      rounded once, to the nearest integer with halves rounded up. */
  function Score(d: WellnessData): (score: int)
    ensures RawScore(d) - 0.5 < score as real <= RawScore(d) + 0.5
  {
    JsRound(RawScore(d))
  }

  /** For every answer the questionnaire's sliders can give, the score lies
      between 13 and 100, so it fits the 0-100 progress bar. */
  lemma ScoreInRange(d: WellnessData)
    requires SlidersInRange(d)
    ensures 13.0 <= RawScore(d) <= 100.0
    ensures 13 <= Score(d) <= 100
  {
  }

  const BestRecord := WellnessData("Excellent", 10, 8.0, 1, "Daily", 8, 0.0, "Yes, regularly", "")
  const WorstRecord := WellnessData("Poor", 1, 4.0, 10, "Never", 0, 16.0, "No", "")

  /** The best answers reach exactly 100, labelled "Excellent". */
  lemma BestScore()
    ensures RawScore(BestRecord) == 100.0
    ensures Score(BestRecord) == 100 && ScoreLabel(Score(BestRecord)) == "Excellent"
  {
  }

  /** The worst answers give 4 + 1.5 + 10 + 1.5 = 17, labelled "Needs Attention". */
  lemma WorstScore()
    ensures RawScore(WorstRecord) == 17.0
    ensures Score(WorstRecord) == 17 && ScoreLabel(Score(WorstRecord)) == "Needs Attention"
  {
  }

  /** What rounding every contribution separately would give instead. */
  function PerTermRoundedScore(d: WellnessData): int
  {
    MoodPoints(d.mood)
    + JsRound(SleepQualityPoints(d.sleepQuality))
    + JsRound(SleepHoursPoints(d.sleepHours))
    + JsRound(StressPoints(d.stressLevel))
    + ExercisePoints(d.exerciseFrequency)
    + JsRound(WaterPoints(d.waterIntake))
    + JsRound(ScreenPoints(d.screenTime))
  }

  /** Rounding happens once, on the sum: on the worst answers the two 1.5
      point terms would round up to 2 each if rounded separately. */
  lemma RoundedOnceNotPerTerm()
    ensures Score(WorstRecord) == 17
    ensures PerTermRoundedScore(WorstRecord) == 18
  {
    assert JsRound(1.5) == 2;
  }

  /** Better answers never lower the score: more sleep quality, less stress,
      more water and less screen time each weakly raise it. */
  lemma ScoreMonotone(d: WellnessData, e: WellnessData)
    requires e.mood == d.mood && e.sleepHours == d.sleepHours
    requires e.exerciseFrequency == d.exerciseFrequency
    requires e.sleepQuality >= d.sleepQuality && e.stressLevel <= d.stressLevel
    requires e.waterIntake >= d.waterIntake && e.screenTime <= d.screenTime
    ensures RawScore(e) >= RawScore(d)
    ensures Score(e) >= Score(d)
  {
    assert WaterPoints(e.waterIntake) >= WaterPoints(d.waterIntake);
    assert ScreenPoints(e.screenTime) >= ScreenPoints(d.screenTime);
    assert (RawScore(e) + 0.5).Floor >= (RawScore(d) + 0.5).Floor;
  }

  // ---------------------------------------------------------------------
  // Score buckets

  /** getScoreLabel: a step function with thresholds 80, 60 and 40. */
  function ScoreLabel(score: int): (name: string)
    ensures name == "Excellent" <==> score >= 80
    ensures name == "Good" <==> 60 <= score < 80
    ensures name == "Fair" <==> 40 <= score < 60
    ensures name == "Needs Attention" <==> score < 40
  {
    if score >= 80 then "Excellent"
    else if score >= 60 then "Good"
    else if score >= 40 then "Fair"
    else "Needs Attention"
  }

  /** getScoreColor: the same buckets, as style names. */
  function ScoreColor(score: int): (color: string)
    ensures color == "wellness-excellent" <==> score >= 80
    ensures color == "wellness-good" <==> 60 <= score < 80
    ensures color == "wellness-fair" <==> 40 <= score < 60
    ensures color == "wellness-poor" <==> score < 40
  {
    if score >= 80 then "wellness-excellent"
    else if score >= 60 then "wellness-good"
    else if score >= 40 then "wellness-fair"
    else "wellness-poor"
  }

  /** Position of a label in the bucket order, worst first. */
  function LabelRank(name: string): int
  {
    match name
    case "Excellent" => 3
    case "Good" => 2
    case "Fair" => 1
    case _ => 0
  }

  /** The colour that belongs to each label. */
  function LabelColor(name: string): string
  {
    match name
    case "Excellent" => "wellness-excellent"
    case "Good" => "wellness-good"
    case "Fair" => "wellness-fair"
    case _ => "wellness-poor"
  }

  /** Label and colour always name the same bucket. */
  lemma LabelAndColorAgree(score: int)
    ensures ScoreColor(score) == LabelColor(ScoreLabel(score))
  {
  }

  /** A higher score never gets a worse label. */
  lemma LabelMonotone(s: int, t: int)
    requires s <= t
    ensures LabelRank(ScoreLabel(s)) <= LabelRank(ScoreLabel(t))
  {
  }

  // ---------------------------------------------------------------------
  // Recommendations

  /** The seven rule categories, in the order the rules are evaluated. */
  datatype Category = Sleep | Stress | Hydration | DigitalWellness | PhysicalActivity | WorkBreaks | MentalHealth
  {
    /** The category as the page shows it. */
    function Name(): string
    {
      match this
      case Sleep => "Sleep"
      case Stress => "Stress"
      case Hydration => "Hydration"
      case DigitalWellness => "Digital Wellness"
      case PhysicalActivity => "Physical Activity"
      case WorkBreaks => "Work Breaks"
      case MentalHealth => "Mental Health"
    }

    /** Position of the category's rule in evaluation order. */
    function Rank(): nat
    {
      match this
      case Sleep => 0
      case Stress => 1
      case Hydration => 2
      case DigitalWellness => 3
      case PhysicalActivity => 4
      case WorkBreaks => 5
      case MentalHealth => 6
    }
  }

  /** A recommendation card. Its title and text are fixed by its category,
      except that the hydration text quotes a number of glasses, so they are
      members of the card; `quoted` is the number the text quotes, if any. */
  datatype Recommendation = Recommendation(category: Category, priority: Priority, quoted: Option<int>)
  {
    function Title(): string
    {
      match category
      case Sleep => "Improve Sleep Quality"
      case Stress => "Stress Relief Exercises"
      case Hydration => "Increase Water Intake"
      case DigitalWellness => "Reduce Screen Time"
      case PhysicalActivity => "Start Moving More"
      case WorkBreaks => "Take Regular Breaks"
      case MentalHealth => "Boost Your Mood"
    }

    function Description(): string
    {
      match category
      case Sleep => SleepAdvice
      case Stress => StressAdvice
      case Hydration => HydrationText(if quoted.Some? then quoted.value else 0)
      case DigitalWellness => ScreenAdvice
      case PhysicalActivity => ExerciseAdvice
      case WorkBreaks => BreaksAdvice
      case MentalHealth => MoodAdvice
    }
  }

  /** The fixed advice texts of the rules. */
  const SleepAdvice := "Try a consistent sleep schedule. Aim for 7-9 hours. Avoid screens 1 hour before bed and create a relaxing bedtime routine."
  const StressAdvice := "Practice deep breathing for 5 minutes: Inhale for 4 counts, hold for 4, exhale for 6. Try meditation apps or take short walks in nature."
  const ScreenAdvice := "Follow the 20-20-20 rule: Every 20 minutes, look at something 20 feet away for 20 seconds. Consider blue light filters."
  const ExerciseAdvice := "Begin with 15-minute walks daily. Try desk stretches, stairs instead of elevators, or short yoga sessions."
  const BreaksAdvice := "Use the Pomodoro Technique: 25 minutes of work, 5-minute breaks. Stand, stretch, or walk every hour to boost productivity and health."
  const MoodAdvice := "Practice gratitude journaling, connect with friends, engage in hobbies you enjoy, or consider speaking with a mental health professional."
  const HydrationTail := " glasses. Aim for 8-10 glasses daily. Set hourly reminders and keep a water bottle nearby."

  /** The hydration advice quotes the number of glasses the record holds. */
  function HydrationText(glasses: int): (text: string)
    ensures |text| == 16 + |IntToString(glasses)| + |HydrationTail|
    ensures text[..16] == "You're drinking "
    ensures text[16..16 + |IntToString(glasses)|] == IntToString(glasses)
  {
    "You're drinking " + IntToString(glasses) + HydrationTail
  }

  function SleepRule(d: WellnessData): (r: Option<Recommendation>)
    ensures r.Some? <==> d.sleepQuality < 6 || d.sleepHours < 7.0
    ensures r.Some? ==> r.value.category == Sleep && r.value.priority == High
  {
    if d.sleepQuality < 6 || d.sleepHours < 7.0 then
      Some(Recommendation(Sleep, High, None))
    else None
  }

  function StressRule(d: WellnessData): (r: Option<Recommendation>)
    ensures r.Some? <==> d.stressLevel > 6
    ensures r.Some? ==> r.value.category == Stress && r.value.priority == High
  {
    if d.stressLevel > 6 then
      Some(Recommendation(Stress, High, None))
    else None
  }

  function HydrationRule(d: WellnessData): (r: Option<Recommendation>)
    ensures r.Some? <==> d.waterIntake < 6
    ensures r.Some? ==> r.value.category == Hydration && r.value.priority == Medium
  {
    if d.waterIntake < 6 then
      Some(Recommendation(Hydration, Medium, Some(d.waterIntake)))
    else None
  }

  function ScreenRule(d: WellnessData): (r: Option<Recommendation>)
    ensures r.Some? <==> d.screenTime > 8.0
    ensures r.Some? ==> r.value.category == DigitalWellness && r.value.priority == Medium
  {
    if d.screenTime > 8.0 then
      Some(Recommendation(DigitalWellness, Medium, None))
    else None
  }

  function ExerciseRule(d: WellnessData): (r: Option<Recommendation>)
    ensures r.Some? <==> d.exerciseFrequency == "Rarely" || d.exerciseFrequency == "Never"
    ensures r.Some? ==> r.value.category == PhysicalActivity && r.value.priority == High
  {
    if d.exerciseFrequency == "Rarely" || d.exerciseFrequency == "Never" then
      Some(Recommendation(PhysicalActivity, High, None))
    else None
  }

  function BreaksRule(d: WellnessData): (r: Option<Recommendation>)
    ensures r.Some? <==> d.workBreaks != "Yes, regularly"
    ensures r.Some? ==> r.value.category == WorkBreaks && r.value.priority == Medium
  {
    if d.workBreaks != "Yes, regularly" then
      Some(Recommendation(WorkBreaks, Medium, None))
    else None
  }

  function MoodRule(d: WellnessData): (r: Option<Recommendation>)
    ensures r.Some? <==> d.mood == "Not Great" || d.mood == "Poor"
    ensures r.Some? ==> r.value.category == MentalHealth && r.value.priority == High
  {
    if d.mood == "Not Great" || d.mood == "Poor" then
      Some(Recommendation(MentalHealth, High, None))
    else None
  }

  /** The rules in evaluation order. */
  function Rules(d: WellnessData): (rules: seq<Option<Recommendation>>)
    ensures |rules| == 7
  {
    [SleepRule(d), StressRule(d), HydrationRule(d), ScreenRule(d), ExerciseRule(d), BreaksRule(d), MoodRule(d)]
  }

  /** What the rule at position k produces: its category has rank k, its
      priority is high for sleep, stress, exercise and mood and medium
      otherwise, and the hydration text quotes the record's water intake. */
  ghost predicate RuleShape(d: WellnessData, k: int, r: Recommendation)
  {
    && r.category.Rank() == k
    && r.priority == (if r.category in {Sleep, Stress, PhysicalActivity, MentalHealth} then High else Medium)
    && (r.quoted.Some? <==> r.category == Hydration)
    && (r.category == Hydration ==> r.quoted == Some(d.waterIntake))
  }

  /** The rule at position k, when it fires, is the rule of the category of rank k. */
  lemma RulesRanked(d: WellnessData)
    ensures forall k :: 0 <= k < 7 && Rules(d)[k].Some? ==> RuleShape(d, k, Rules(d)[k].value)
  {
    var rules := Rules(d);
    forall k | 0 <= k < 7 && rules[k].Some? ensures RuleShape(d, k, rules[k].value) {
      if k == 0 { assert rules[k] == SleepRule(d); }
      else if k == 1 { assert rules[k] == StressRule(d); }
      else if k == 2 { assert rules[k] == HydrationRule(d); }
      else if k == 3 { assert rules[k] == ScreenRule(d); }
      else if k == 4 { assert rules[k] == ExerciseRule(d); }
      else if k == 5 { assert rules[k] == BreaksRule(d); }
      else { assert rules[k] == MoodRule(d); }
    }
  }

  /** generateRecommendations: nothing without a stored record, otherwise
      every rule that fires, in rule order, with no fallback entry. */
  function Recommendations(data: Option<WellnessData>): (recs: seq<Recommendation>)
    ensures |recs| <= 7
    ensures data.None? ==> recs == []
  {
    match data
    case None => []
    case Some(d) => Somes(Rules(d))
  }

  predicate HasCategory(recs: seq<Recommendation>, c: Category)
  {
    exists i :: 0 <= i < |recs| && recs[i].category == c
  }

  /** The k-th rule of a list only ever produces the category of rank k. */
  ghost predicate CategoriesRanked(rules: seq<Option<Recommendation>>)
  {
    forall k :: 0 <= k < |rules| && rules[k].Some? ==> rules[k].value.category.Rank() == k
  }

  /** Over any rule list whose k-th rule only produces the category of rank
      k, a category is among the fired rules exactly when the rule at its
      rank fires. */
  lemma {:induction false} FiredIff(rules: seq<Option<Recommendation>>, c: Category)
    requires CategoriesRanked(rules)
    ensures HasCategory(Somes(rules), c) <==> c.Rank() < |rules| && rules[c.Rank()].Some?
  {
    var recs := Somes(rules);
    if c.Rank() < |rules| && rules[c.Rank()].Some? {
      SomesComplete(rules, c.Rank());
      var i :| 0 <= i < |recs| && recs[i] == rules[c.Rank()].value;
    }
    if HasCategory(recs, c) {
      var i :| 0 <= i < |recs| && recs[i].category == c;
      SomesSound(rules, recs[i]);
    }
  }

  /** A category appears exactly when the rule at its rank fires. */
  lemma {:induction false} CategoryIffRule(d: WellnessData, c: Category)
    ensures HasCategory(Somes(Rules(d)), c) <==> Rules(d)[c.Rank()].Some?
  {
    var rules := Rules(d);
    RulesRanked(d);
    assert CategoriesRanked(rules) by {
      forall k | 0 <= k < |rules| && rules[k].Some? ensures rules[k].value.category.Rank() == k {
        assert RuleShape(d, k, rules[k].value);
      }
    }
    FiredIff(rules, c);
  }

  /** When each rule fires, stated on the record. */
  lemma RuleConditions(d: WellnessData)
    ensures var rules := Rules(d);
      && (rules[Sleep.Rank()].Some? <==> d.sleepQuality < 6 || d.sleepHours < 7.0)
      && (rules[Stress.Rank()].Some? <==> d.stressLevel > 6)
      && (rules[Hydration.Rank()].Some? <==> d.waterIntake < 6)
      && (rules[DigitalWellness.Rank()].Some? <==> d.screenTime > 8.0)
      && (rules[PhysicalActivity.Rank()].Some? <==> d.exerciseFrequency == "Rarely" || d.exerciseFrequency == "Never")
      && (rules[WorkBreaks.Rank()].Some? <==> d.workBreaks != "Yes, regularly")
      && (rules[MentalHealth.Rank()].Some? <==> d.mood == "Not Great" || d.mood == "Poor")
  {
  }

  /** The seven rules, each on its own and each stated on the record. */
  lemma RecommendationTriggers(d: WellnessData)
    ensures var recs := Recommendations(Some(d));
      && (HasCategory(recs, Sleep) <==> d.sleepQuality < 6 || d.sleepHours < 7.0)
      && (HasCategory(recs, Stress) <==> d.stressLevel > 6)
      && (HasCategory(recs, Hydration) <==> d.waterIntake < 6)
      && (HasCategory(recs, DigitalWellness) <==> d.screenTime > 8.0)
      && (HasCategory(recs, PhysicalActivity) <==> d.exerciseFrequency == "Rarely" || d.exerciseFrequency == "Never")
      && (HasCategory(recs, WorkBreaks) <==> d.workBreaks != "Yes, regularly")
      && (HasCategory(recs, MentalHealth) <==> d.mood == "Not Great" || d.mood == "Poor")
  {
    RuleConditions(d);
    CategoryIffRule(d, Sleep);
    CategoryIffRule(d, Stress);
    CategoryIffRule(d, Hydration);
    CategoryIffRule(d, DigitalWellness);
    CategoryIffRule(d, PhysicalActivity);
    CategoryIffRule(d, WorkBreaks);
    CategoryIffRule(d, MentalHealth);
  }

  /** Recommendations keep rule order (Sleep, Stress, Hydration, Digital
      Wellness, Physical Activity, Work Breaks, Mental Health): never
      re-sorted by priority, and no category twice. */
  lemma RecommendationsInRuleOrder(d: WellnessData)
    ensures var recs := Recommendations(Some(d));
      forall i, j :: 0 <= i < j < |recs| ==> recs[i].category.Rank() < recs[j].category.Rank()
  {
    RulesRanked(d);
    SomesOrdered(Rules(d), (r: Recommendation) => r.category.Rank() as int);
  }

  /** Priorities are fixed per category: high for sleep, stress, exercise and
      mood, medium for the others; the hydration advice quotes the record's
      water intake. */
  lemma RecommendationContents(d: WellnessData)
    ensures forall r :: r in Recommendations(Some(d)) ==>
      && r.priority == (if r.category in {Sleep, Stress, PhysicalActivity, MentalHealth} then High else Medium)
      && (r.quoted.Some? <==> r.category == Hydration)
      && (r.category == Hydration ==> r.Description() == HydrationText(d.waterIntake))
  {
    RulesRanked(d);
    forall r | r in Recommendations(Some(d))
      ensures r.priority == (if r.category in {Sleep, Stress, PhysicalActivity, MentalHealth} then High else Medium)
      ensures r.quoted.Some? <==> r.category == Hydration
      ensures r.category == Hydration ==> r.Description() == HydrationText(d.waterIntake)
    {
      SomesSound(Rules(d), r);
      var k :| 0 <= k < 7 && Rules(d)[k] == Some(r);
      assert RuleShape(d, k, r);
    }
  }

  /** There is no fallback entry: the list is empty exactly when no rule
      fires, which is the case for the best answers. */
  lemma NoFallback(d: WellnessData)
    ensures Recommendations(Some(d)) == [] <==> forall k :: 0 <= k < 7 ==> Rules(d)[k].None?
    ensures Recommendations(Some(BestRecord)) == []
  {
    SomesEmpty(Rules(d));
    SomesEmpty(Rules(BestRecord));
  }
}
