/** The pattern analyser: trend rules that compare the last seven check-ins
    with the seven before them, a dominant-activity rule, a mood-volatility
    rule, and summary statistics over the whole history. */
module Patterns {
  import opened Common
  import opened Records

  // ---------------------------------------------------------------------
  // Patterns

  /** The `type` tag of a pattern, in the order the detectors run. */
  datatype PatternType = Focus | Stress | Energy | Routine | Mood | Info
  {
    function Name(): string
    {
      match this
      case Focus => "focus"
      case Stress => "stress"
      case Energy => "energy"
      case Routine => "routine"
      case Mood => "mood"
      case Info => "info"
    }

    function Rank(): nat
    {
      match this
      case Focus => 0
      case Stress => 1
      case Energy => 2
      case Routine => 3
      case Mood => 4
      case Info => 5
    }
  }

  /** "up" | "down" | "stable". */
  datatype Trend = Up | Down | Stable

  /** The pattern cards the analyser can show. Each card's type, trend, title
      and text are fixed by which card it is; the focus-gain card carries the
      gain in tenths of a point and the routine card the dominant activity. */
  datatype Pattern =
    | InsufficientData
    | FocusImproving(gainTenths: nat)
    | FocusDeclining
    | StressIncreasing
    | StressDecreasing
    | LowEnergy
    | HighEnergy
    | RoutineDetected(activity: string)
    | MoodFluctuations
    | StableMood
    | StablePatterns
  {
    function Type(): PatternType
    {
      match this
      case FocusImproving(_) | FocusDeclining => Focus
      case StressIncreasing | StressDecreasing => Stress
      case LowEnergy | HighEnergy => Energy
      case RoutineDetected(_) => Routine
      case MoodFluctuations | StableMood => Mood
      case InsufficientData | StablePatterns => Info
    }

    function Direction(): Trend
    {
      match this
      case FocusImproving(_) | StressDecreasing | HighEnergy | StableMood => Up
      case FocusDeclining | StressIncreasing | LowEnergy | MoodFluctuations => Down
      case RoutineDetected(_) | InsufficientData | StablePatterns => Stable
    }

    function Title(): string
    {
      match this
      case InsufficientData => "Insufficient Data"
      case FocusImproving(_) => "Focus Improving"
      case FocusDeclining => "Focus Declining"
      case StressIncreasing => "Stress Increasing"
      case StressDecreasing => "Stress Decreasing"
      case LowEnergy => "Low Energy Pattern"
      case HighEnergy => "High Energy Levels"
      case RoutineDetected(_) => "Routine Detected"
      case MoodFluctuations => "Mood Fluctuations"
      case StableMood => "Stable Mood"
      case StablePatterns => "Stable Patterns"
    }

    /** The card text: the gain printed to one decimal without a trailing
        ".0", the activity lower-cased. */
    function Description(): string
    {
      match this
      case InsufficientData => InsufficientText
      case FocusImproving(tenths) => FocusGainPrefix + TenthsToString(tenths) + FocusGainSuffix
      case FocusDeclining => FocusLossText
      case StressIncreasing => StressRiseText
      case StressDecreasing => StressFallText
      case LowEnergy => LowEnergyText
      case HighEnergy => HighEnergyText
      case RoutineDetected(a) => RoutinePrefix + Lower(a) + RoutineSuffix
      case MoodFluctuations => FluctuatingText
      case StableMood => SteadyText
      case StablePatterns => StableText
    }
  }

  /** getTrendColor. */
  function TrendColor(trend: Trend): (color: string)
    ensures color == "wellness-excellent" <==> trend == Up
    ensures color == "wellness-poor" <==> trend == Down
    ensures color == "wellness-fair" <==> trend == Stable
  {
    match trend
    case Up => "wellness-excellent"
    case Down => "wellness-poor"
    case Stable => "wellness-fair"
  }

  /** The fixed texts. */
  const InsufficientText := "Keep tracking your behavior to discover personalized patterns and insights."
  const FocusGainPrefix := "Your focus levels have increased by "
  const FocusGainSuffix := " points. Keep up the good work!"
  const FocusLossText := "Your focus has decreased. Consider implementing better work habits or reducing distractions."
  const StressRiseText := "Your stress levels have risen. Prioritize relaxation techniques and self-care activities."
  const StressFallText := "Great job managing stress! Your levels have improved significantly."
  const LowEnergyText := "Your energy levels are consistently low. Review your sleep, nutrition, and exercise habits."
  const HighEnergyText := "You're maintaining excellent energy levels. Your lifestyle habits are working well!"
  const RoutinePrefix := "You spend most of your time "
  const RoutineSuffix := ". Consider balancing with other activities."
  const FluctuatingText := "Your mood varies significantly. Consider tracking triggers and practicing emotional regulation techniques."
  const SteadyText := "Your emotional state is consistent and balanced. Great emotional regulation!"
  const StableText := "Your behavior patterns are relatively stable. Continue monitoring to track changes over time."

  // ---------------------------------------------------------------------
  // Windows and means

  function Max0(x: int): nat
  {
    if x > 0 then x else 0
  }

  /** `data.slice(-7)`: the last seven check-ins, or all of them. */
  function RecentWindow(data: seq<CheckIn>): (w: seq<CheckIn>)
    ensures |w| == if |data| < 7 then |data| else 7
    ensures w == data[Max0(|data| - 7)..]
  {
    data[Max0(|data| - 7)..]
  }

  /** `data.slice(-14, -7)`: the up to seven check-ins before the recent window. */
  function OlderWindow(data: seq<CheckIn>): (w: seq<CheckIn>)
    ensures |data| <= 7 ==> w == []
    ensures |w| == Max0(|data| - 7) - Max0(|data| - 14) && |w| <= 7
  {
    data[Max0(|data| - 14)..Max0(|data| - 7)]
  }

  /** The older window ends where the recent window begins: together they
      are the last fourteen check-ins, in order. */
  lemma WindowsAdjacent(data: seq<CheckIn>)
    ensures OlderWindow(data) + RecentWindow(data) == data[Max0(|data| - 14)..]
  {
    var a, b := Max0(|data| - 14), Max0(|data| - 7);
    assert data[a..b] + data[b..] == data[a..];
  }

  datatype Metric = FocusLevel | StressLevel | EnergyLevel

  function Level(c: CheckIn, m: Metric): int
  {
    match m
    case FocusLevel => c.focusLevel
    case StressLevel => c.stressLevel
    case EnergyLevel => c.energy
  }

  /** `reduce((sum, c) => sum + c.<metric>, 0)`. */
  function Total(data: seq<CheckIn>, m: Metric): int
  {
    if data == [] then 0 else Total(data[..|data| - 1], m) + Level(data[|data| - 1], m)
  }

  /** Levels within the sliders' 1..10 total between |data| and 10 |data|. */
  lemma {:induction false} TotalBounds(data: seq<CheckIn>, m: Metric)
    requires forall i :: 0 <= i < |data| ==> 1 <= Level(data[i], m) <= 10
    ensures |data| <= Total(data, m) <= 10 * |data|
  {
    if data != [] {
      var init := data[..|data| - 1];
      assert forall i :: 0 <= i < |init| ==> init[i] == data[i];
      TotalBounds(init, m);
    }
  }

  function Mean(data: seq<CheckIn>, m: Metric): real
    requires |data| > 0
  {
    Total(data, m) as real / |data| as real
  }

  /** The mean of the older window, or the recent mean when that window is empty. */
  function OlderMean(data: seq<CheckIn>, m: Metric): real
    requires |data| > 0
  {
    var older := OlderWindow(data);
    if |older| > 0 then Mean(older, m) else Mean(RecentWindow(data), m)
  }

  /** On slider values every level is within 1..10, and so is their mean. */
  lemma MeanWithin(data: seq<CheckIn>, m: Metric)
    requires |data| > 0
    requires forall i :: 0 <= i < |data| ==> 1 <= Level(data[i], m) <= 10
    ensures 1.0 <= Mean(data, m) <= 10.0
  {
    TotalBounds(data, m);
    QuotientWithin(Total(data, m) as real, |data| as real, 1.0, 10.0);
  }

  /** The older mean, like the recent one, stays within 1..10 on slider values. */
  lemma OlderMeanWithin(data: seq<CheckIn>, m: Metric)
    requires |data| > 0
    requires forall i :: 0 <= i < |data| ==> 1 <= Level(data[i], m) <= 10
    ensures 1.0 <= OlderMean(data, m) <= 10.0
  {
    var older, recent := OlderWindow(data), RecentWindow(data);
    if |older| > 0 {
      assert forall i :: 0 <= i < |older| ==> older[i] == data[Max0(|data| - 14) + i];
      MeanWithin(older, m);
    } else {
      assert forall i :: 0 <= i < |recent| ==> recent[i] == data[Max0(|data| - 7) + i];
      MeanWithin(recent, m);
    }
  }

  /** A quotient of a value between lo n and hi n by n > 0 lies between lo and hi. */
  lemma QuotientWithin(x: real, n: real, lo: real, hi: real)
    requires n > 0.0 && lo * n <= x <= hi * n
    ensures lo <= x / n <= hi
  {
    assert x / n == x * (1.0 / n);
    assert lo == lo * n * (1.0 / n) && hi == hi * n * (1.0 / n);
  }


  // ---------------------------------------------------------------------
  // Activity counts: a dictionary keyed by activity, with its keys in
  // insertion order as Object.entries lists them.

  datatype ActivityCount = ActivityCount(counts: map<string, nat>, order: seq<string>)

  /** `count[a] = (count[a] || 0) + 1`: a new key goes at the end of the order. */
  function Bump(t: ActivityCount, a: string): ActivityCount
  {
    if a in t.counts then ActivityCount(t.counts[a := t.counts[a] + 1], t.order)
    else ActivityCount(t.counts[a := 1], t.order + [a])
  }

  /** The dictionary the `forEach` over the check-ins builds. */
  function CountActivitiesOf(data: seq<CheckIn>): (t: ActivityCount)
    ensures forall a {:trigger a in t.order} :: a in t.counts <==> a in t.order
    ensures forall k :: 0 <= k < |t.order| ==> t.order[k] in t.counts
    ensures |t.order| <= |data|
    ensures |data| > 0 ==> |t.order| > 0
  {
    if data == [] then ActivityCount(map[], []) else Bump(CountActivitiesOf(data[..|data| - 1]), data[|data| - 1].activity)
  }

  /** Whether an activity occurs among the check-ins. */
  predicate Occurs(data: seq<CheckIn>, a: string)
  {
    exists k :: 0 <= k < |data| && data[k].activity == a
  }

  /** How often an activity occurs among the check-ins (reference count). */
  function Occurrences(data: seq<CheckIn>, a: string): nat
  {
    if data == [] then 0 else Occurrences(data[..|data| - 1], a) + (if data[|data| - 1].activity == a then 1 else 0)
  }

  /** Each key is listed once. */
  ghost predicate DistinctKeys(t: ActivityCount)
  {
    forall i, j :: 0 <= i < j < |t.order| ==> t.order[i] != t.order[j]
  }

  /** The keys are exactly the activities that occur. */
  ghost predicate KeysOccur(t: ActivityCount, data: seq<CheckIn>)
  {
    forall a :: a in t.counts <==> Occurs(data, a)
  }

  /** Each key maps to its number of occurrences. */
  ghost predicate CountsMatch(t: ActivityCount, data: seq<CheckIn>)
  {
    forall a :: a in t.counts ==> t.counts[a] == Occurrences(data, a)
  }

  /** Keys are listed in order of first appearance: every occurrence of a
      later key is preceded by an occurrence of each earlier key. */
  ghost predicate FirstAppearanceOrder(t: ActivityCount, data: seq<CheckIn>)
  {
    forall i, j, k :: 0 <= i < j < |t.order| && 0 <= k < |data| && data[k].activity == t.order[j] ==>
      exists k' :: 0 <= k' < k && data[k'].activity == t.order[i]
  }

  lemma OccursSplit(data: seq<CheckIn>, a: string)
    requires data != []
    ensures Occurs(data, a) <==> Occurs(data[..|data| - 1], a) || data[|data| - 1].activity == a
  {
    var prefix := data[..|data| - 1];
    if Occurs(data, a) && data[|data| - 1].activity != a {
      var k :| 0 <= k < |data| && data[k].activity == a;
      assert prefix[k].activity == a;
    }
    if Occurs(prefix, a) {
      var k :| 0 <= k < |prefix| && prefix[k].activity == a;
      assert data[k].activity == a;
    }
  }

  lemma {:induction false} OccurrencesOfAbsent(data: seq<CheckIn>, a: string)
    requires !Occurs(data, a)
    ensures Occurrences(data, a) == 0
  {
    if data != [] {
      OccursSplit(data, a);
      OccurrencesOfAbsent(data[..|data| - 1], a);
    }
  }

  /** The dictionary's keys are the activities that occur, each listed once. */
  lemma {:induction false} CountKeys(data: seq<CheckIn>)
    ensures DistinctKeys(CountActivitiesOf(data)) && KeysOccur(CountActivitiesOf(data), data)
  {
    if data != [] {
      var prefix, x := data[..|data| - 1], data[|data| - 1].activity;
      CountKeys(prefix);
      assert x in CountActivitiesOf(prefix).order <==> x in CountActivitiesOf(prefix).counts;
      forall a ensures a in CountActivitiesOf(data).counts <==> Occurs(data, a) {
        OccursSplit(data, a);
      }
    }
  }

  /** Each key maps to the number of check-ins with that activity. */
  lemma {:induction false} CountValues(data: seq<CheckIn>)
    ensures CountsMatch(CountActivitiesOf(data), data)
  {
    if data != [] {
      var prefix, x := data[..|data| - 1], data[|data| - 1];
      var p := CountActivitiesOf(prefix);
      CountValues(prefix);
      CountKeys(prefix);
      if x.activity !in p.counts {
        OccurrencesOfAbsent(prefix, x.activity);
      }
    }
  }

  /** The keys are listed in order of first appearance. */
  lemma {:induction false} CountOrder(data: seq<CheckIn>)
    ensures FirstAppearanceOrder(CountActivitiesOf(data), data)
  {
    if data != [] {
      var t := CountActivitiesOf(data);
      CountOrder(data[..|data| - 1]);
      CountKeys(data[..|data| - 1]);
      forall i, j, k | 0 <= i < j < |t.order| && 0 <= k < |data| && data[k].activity == t.order[j]
        ensures exists k' :: 0 <= k' < k && data[k'].activity == t.order[i]
      {
        CountOrderStep(data, i, j, k);
      }
    }
  }

  /** One instance of the order property after one more check-in, from the
      property and the keys of the shorter history. */
  lemma CountOrderStep(data: seq<CheckIn>, i: nat, j: nat, k: nat)
    requires data != []
    requires FirstAppearanceOrder(CountActivitiesOf(data[..|data| - 1]), data[..|data| - 1])
    requires KeysOccur(CountActivitiesOf(data[..|data| - 1]), data[..|data| - 1])
    requires i < j < |CountActivitiesOf(data).order|
    requires k < |data| && data[k].activity == CountActivitiesOf(data).order[j]
    ensures exists k' :: 0 <= k' < k && data[k'].activity == CountActivitiesOf(data).order[i]
  {
    var prefix, x := data[..|data| - 1], data[|data| - 1];
    var p, t := CountActivitiesOf(prefix), CountActivitiesOf(data);
    assert t.order[i] == p.order[i];
    assert p.order[i] in p.order;
    assert Occurs(prefix, p.order[i]);
    var k0 :| 0 <= k0 < |prefix| && prefix[k0].activity == p.order[i];
    if k < |prefix| {
      assert prefix[k].activity == t.order[j];
      if j < |p.order| {
        var k1 :| 0 <= k1 < k && prefix[k1].activity == p.order[i];
        assert data[k1].activity == t.order[i];
      } else {
        assert false;
      }
    } else {
      assert data[k0].activity == t.order[i];
    }
  }

  /** The `forEach` loop that fills the dictionary in place. */
  method CountActivities(data: seq<CheckIn>) returns (t: ActivityCount)
    ensures t == CountActivitiesOf(data)
    ensures DistinctKeys(t) && KeysOccur(t, data) && CountsMatch(t, data) && FirstAppearanceOrder(t, data)
  {
    var counts: map<string, nat> := map[];
    var order: seq<string> := [];
    var i := 0;
    while i < |data|
      invariant 0 <= i <= |data|
      invariant counts == CountActivitiesOf(data[..i]).counts
      invariant order == CountActivitiesOf(data[..i]).order
    {
      var a := data[i].activity;
      CountStep(data, i);
      if a !in counts {
        order := order + [a];
      }
      counts := counts[a := (if a in counts then counts[a] else 0) + 1];
      i := i + 1;
    }
    assert data[..i] == data;
    t := ActivityCount(counts, order);
    CountFacts(data, t);
  }

  /** One more check-in bumps its activity's count. */
  lemma CountStep(data: seq<CheckIn>, i: nat)
    requires i < |data|
    ensures var before, a := CountActivitiesOf(data[..i]), data[i].activity;
      && CountActivitiesOf(data[..i + 1]).counts ==
           before.counts[a := (if a in before.counts then before.counts[a] else 0) + 1]
      && CountActivitiesOf(data[..i + 1]).order ==
           if a in before.counts then before.order else before.order + [a]
  {
    assert data[..i + 1][..i] == data[..i];
  }

  /** The dictionary's keys, counts and order, together. */
  lemma CountFacts(data: seq<CheckIn>, t: ActivityCount)
    requires t == CountActivitiesOf(data)
    ensures DistinctKeys(t) && KeysOccur(t, data) && CountsMatch(t, data) && FirstAppearanceOrder(t, data)
  {
    CountKeys(data);
    CountValues(data);
    CountOrder(data);
  }

  /** `Object.entries(count).sort((a, b) => b[1] - a[1])[0]`: sort is stable,
      so the first entry of the sorted list is the first key, in insertion
      order, whose count is maximal. */
  function FirstMax(order: seq<string>, counts: map<string, nat>): (i: nat)
    requires |order| > 0
    requires forall k :: 0 <= k < |order| ==> order[k] in counts
    ensures i < |order|
    ensures forall j :: 0 <= j < |order| ==> counts[order[j]] <= counts[order[i]]
    ensures forall j :: 0 <= j < i ==> counts[order[j]] < counts[order[i]]
  {
    if |order| == 1 then 0
    else
      var best := FirstMax(order[..|order| - 1], counts);
      if counts[order[|order| - 1]] > counts[order[best]] then |order| - 1 else best
  }

  /** The entry at the head of the sorted list, if the dictionary has any. */
  function Dominant(t: ActivityCount): (top: Option<(string, nat)>)
    requires forall a :: a in t.counts <==> a in t.order
    ensures top.Some? <==> |t.order| > 0
    ensures top.Some? ==> top.value.0 in t.counts && top.value.1 == t.counts[top.value.0]
  {
    if t.order == [] then None
    else var a := t.order[FirstMax(t.order, t.counts)]; Some((a, t.counts[a]))
  }

  /** The dominant entry of the check-ins' dictionary is an activity that
      occurs, with its count, and no activity occurs more often. */
  lemma DominantIsMostFrequent(data: seq<CheckIn>)
    requires |data| > 0
    ensures var (a, n) := Dominant(CountActivitiesOf(data)).value;
      && n == Occurrences(data, a) && Occurs(data, a)
      && (forall b :: Occurs(data, b) ==> Occurrences(data, b) <= n)
  {
    var t := CountActivitiesOf(data);
    CountKeys(data);
    CountValues(data);
    var i := FirstMax(t.order, t.counts);
    forall b | Occurs(data, b) ensures Occurrences(data, b) <= t.counts[t.order[i]] {
      assert b in t.order;
      var j :| 0 <= j < |t.order| && t.order[j] == b;
    }
  }

  /** An activity that occurs is a key, mapped to its number of occurrences. */
  lemma KeyOf(data: seq<CheckIn>, b: string)
    requires Occurs(data, b)
    ensures b in CountActivitiesOf(data).order
    ensures CountActivitiesOf(data).counts[b] == Occurrences(data, b)
  {
    CountKeys(data);
    CountValues(data);
  }

  /** An occurrence of a later key is preceded by one of an earlier key. */
  lemma EarlierKeyFirst(data: seq<CheckIn>, i: nat, j: nat, k: nat) returns (k': nat)
    requires i < j < |CountActivitiesOf(data).order|
    requires k < |data| && data[k].activity == CountActivitiesOf(data).order[j]
    ensures k' < k && data[k'].activity == CountActivitiesOf(data).order[i]
  {
    CountOrder(data);
    k' := OrderInstance(CountActivitiesOf(data), data, i, j, k);
  }

  lemma OrderInstance(t: ActivityCount, data: seq<CheckIn>, i: nat, j: nat, k: nat) returns (k': nat)
    requires FirstAppearanceOrder(t, data)
    requires i < j < |t.order| && k < |data| && data[k].activity == t.order[j]
    ensures k' < k && data[k'].activity == t.order[i]
  {
    assert 0 <= i < j < |t.order| && 0 <= k < |data| && data[k].activity == t.order[j];
    assert exists k' :: 0 <= k' < k && data[k'].activity == t.order[i];
    k' :| 0 <= k' < k && data[k'].activity == t.order[i];
  }

  /** Among equally frequent activities the dominant one is the one that
      appears first. */
  lemma DominantAppearsFirst(data: seq<CheckIn>)
    requires |data| > 0
    ensures var (a, n) := Dominant(CountActivitiesOf(data)).value;
      forall k :: 0 <= k < |data| && Occurrences(data, data[k].activity) == n ==>
        exists k' :: 0 <= k' <= k && data[k'].activity == a
  {
    var (a, n) := Dominant(CountActivitiesOf(data)).value;
    forall k | 0 <= k < |data| && Occurrences(data, data[k].activity) == n
      ensures exists k' :: 0 <= k' <= k && data[k'].activity == a
    {
      DominantPrecedes(data, k);
    }
  }

  lemma DominantPrecedes(data: seq<CheckIn>, k: nat)
    requires k < |data|
    requires Occurrences(data, data[k].activity) == Dominant(CountActivitiesOf(data)).value.1
    ensures exists k' :: 0 <= k' <= k && data[k'].activity == Dominant(CountActivitiesOf(data)).value.0
  {
    var i, j := TallyTopOrLaterKey(data, k);
    if i == j {
      assert data[k].activity == Dominant(CountActivitiesOf(data)).value.0;
    } else {
      var k' := EarlierKeyFirst(data, i, j, k);
      assert data[k'].activity == Dominant(CountActivitiesOf(data)).value.0;
    }
  }

  /** The positions, in insertion order, of the head entry (i) and of the
      k-th check-in's activity (j): the head entry comes no later. */
  lemma TallyTopOrLaterKey(data: seq<CheckIn>, k: nat) returns (i: nat, j: nat)
    requires k < |data|
    requires Occurrences(data, data[k].activity) == Dominant(CountActivitiesOf(data)).value.1
    ensures i <= j < |CountActivitiesOf(data).order|
    ensures CountActivitiesOf(data).order[i] == Dominant(CountActivitiesOf(data)).value.0
    ensures CountActivitiesOf(data).order[j] == data[k].activity
  {
    var t := CountActivitiesOf(data);
    CountKeys(data);
    CountValues(data);
    TopOrLaterKey(t, data, k);
    i, j := FirstMax(t.order, t.counts), IndexOf(t.order, data[k].activity);
    if data[k].activity == Dominant(t).value.0 {
      j := i;
    }
  }

  /** A check-in as frequent as the head entry has the head entry's activity
      or one listed after it. */
  lemma TopOrLaterKey(t: ActivityCount, data: seq<CheckIn>, k: nat)
    requires forall a :: a in t.counts <==> a in t.order
    requires |t.order| > 0
    requires KeysOccur(t, data) && CountsMatch(t, data)
    requires k < |data| && Occurrences(data, data[k].activity) == Dominant(t).value.1
    ensures data[k].activity in t.order
    ensures Dominant(t).value.0 == t.order[FirstMax(t.order, t.counts)]
    ensures data[k].activity == Dominant(t).value.0
      || FirstMax(t.order, t.counts) < IndexOf(t.order, data[k].activity)
  {
    var b := data[k].activity;
    assert Occurs(data, b);
    var j := IndexOf(t.order, b);
    var i := FirstMax(t.order, t.counts);
    FirstMaxIsFirst(t.order, t.counts, j);
    if i == j {
      assert b == t.order[i];
    }
  }

  /** The position of an element of a sequence. */
  function IndexOf(s: seq<string>, x: string): (i: nat)
    requires x in s
    ensures i < |s| && s[i] == x
  {
    if s[0] == x then 0 else 1 + IndexOf(s[1..], x)
  }

  /** No key before the first maximum has as large a count. */
  lemma FirstMaxIsFirst(order: seq<string>, counts: map<string, nat>, j: nat)
    requires |order| > 0 && j < |order|
    requires forall k :: 0 <= k < |order| ==> order[k] in counts
    requires counts[order[j]] == counts[order[FirstMax(order, counts)]]
    ensures FirstMax(order, counts) <= j
  {
  }

  // ---------------------------------------------------------------------
  // Mood volatility

  /** The ordinal of a check-in mood; other strings have none. */
  function MoodScore(mood: string): (s: Option<int>)
    ensures s.Some? <==> mood in CheckInMoods
    ensures s.Some? ==> 1 <= s.value <= 5
  {
    match mood
    case "Excellent" => Some(5)
    case "Good" => Some(4)
    case "Neutral" => Some(3)
    case "Stressed" => Some(2)
    case "Poor" => Some(1)
    case _ => None
  }

  function Abs(x: int): nat
  {
    if x < 0 then -x else x
  }

  /** The summed absolute mood change between consecutive entries. None is
      the NaN that an unrecognised mood turns the whole sum into. */
  function MoodSteps(w: seq<CheckIn>): (r: Option<nat>)
    ensures r.Some? && |w| >= 1 ==> r.value <= 4 * (|w| - 1)
  {
    if |w| <= 1 then Some(0)
    else
      var before := MoodSteps(w[..|w| - 1]);
      var a, b := MoodScore(w[|w| - 1].mood), MoodScore(w[|w| - 2].mood);
      if before.None? || a.None? || b.None? then None
      else Some(before.value + Abs(a.value - b.value))
  }

  /** The NaN case arises exactly when some entry's mood is unknown. */
  lemma {:induction false} MoodStepsDefined(w: seq<CheckIn>)
    requires |w| >= 2
    ensures MoodSteps(w).Some? <==> forall k :: 0 <= k < |w| ==> w[k].mood in CheckInMoods
  {
    if |w| > 2 {
      MoodStepsDefined(w[..|w| - 1]);
      assert forall k :: 0 <= k < |w| - 1 ==> w[..|w| - 1][k] == w[k];
    }
  }

  /** The mean absolute step, when every mood is known. */
  function MoodVolatility(w: seq<CheckIn>): (v: Option<real>)
    requires |w| >= 2
    ensures v.Some? <==> forall k :: 0 <= k < |w| ==> w[k].mood in CheckInMoods
  {
    MoodStepsDefined(w);
    var steps := MoodSteps(w);
    if steps.None? then None else Some(steps.value as real / (|w| - 1) as real)
  }

  /** The volatility of known moods lies within 0..4: no step between two
      moods exceeds 4. */
  lemma VolatilityBound(w: seq<CheckIn>)
    requires |w| >= 2
    ensures MoodVolatility(w).Some? ==> 0.0 <= MoodVolatility(w).value <= 4.0
  {
    var steps := MoodSteps(w);
    if steps.Some? {
      var x, n := steps.value as real, (|w| - 1) as real;
      assert x <= 4.0 * n;
      QuotientWithin(x, n, 0.0, 4.0);
      assert MoodVolatility(w).value == x / n;
    }
  }

  // ---------------------------------------------------------------------
  // The five detectors

  /** Focus improving when the recent mean exceeds the older by more than a
      point (the card shows the gain rounded to a tenth), declining when it
      falls short by more than a point. */
  function FocusPattern(recentMean: real, olderMean: real): (p: Option<Pattern>)
    ensures p.Some? ==> p.value.FocusImproving? || p.value.FocusDeclining?
    ensures p.Some? && p.value.FocusImproving? <==> recentMean > olderMean + 1.0
    ensures p.Some? && p.value.FocusDeclining? <==> recentMean < olderMean - 1.0
    ensures p.Some? && p.value.FocusImproving? ==>
      p.value.gainTenths == JsRound((recentMean - olderMean) * 10.0) && p.value.gainTenths >= 10
  {
    if recentMean > olderMean + 1.0 then Some(FocusImproving(JsRound((recentMean - olderMean) * 10.0) as nat))
    else if recentMean < olderMean - 1.0 then Some(FocusDeclining)
    else None
  }

  /** Rising stress is an adverse trend (down), falling stress a good one (up). */
  function StressPattern(recentMean: real, olderMean: real): (p: Option<Pattern>)
    ensures p.Some? ==> p.value.StressIncreasing? || p.value.StressDecreasing?
    ensures p == Some(StressIncreasing) <==> recentMean > olderMean + 1.0
    ensures p == Some(StressDecreasing) <==> recentMean < olderMean - 1.0
  {
    if recentMean > olderMean + 1.0 then Some(StressIncreasing)
    else if recentMean < olderMean - 1.0 then Some(StressDecreasing)
    else None
  }

  function EnergyPattern(recentMean: real): (p: Option<Pattern>)
    ensures p.Some? ==> p.value.LowEnergy? || p.value.HighEnergy?
    ensures p == Some(LowEnergy) <==> recentMean < 4.0
    ensures p == Some(HighEnergy) <==> recentMean > 7.0
  {
    if recentMean < 4.0 then Some(LowEnergy)
    else if recentMean > 7.0 then Some(HighEnergy)
    else None
  }

  /** The dominant activity of a window of `size` check-ins, when its count
      exceeds 60% of the window. */
  function RoutinePattern(dominant: Option<(string, nat)>, size: nat): (p: Option<Pattern>)
    ensures p.Some? <==> dominant.Some? && 5 * dominant.value.1 > 3 * size
    ensures p.Some? ==> p.value == RoutineDetected(dominant.value.0)
  {
    if dominant.Some? && dominant.value.1 as real > size as real * 0.6 then Some(RoutineDetected(dominant.value.0))
    else None
  }

  /** Fluctuating mood above a mean step of 2, stable mood below 1; neither
      when the volatility is NaN. */
  function MoodPattern(volatility: Option<real>): (p: Option<Pattern>)
    ensures p == Some(MoodFluctuations) <==> volatility.Some? && volatility.value > 2.0
    ensures p == Some(StableMood) <==> volatility.Some? && volatility.value < 1.0
    ensures p.Some? ==> p.value.MoodFluctuations? || p.value.StableMood?
  {
    if volatility.Some? && volatility.value > 2.0 then Some(MoodFluctuations)
    else if volatility.Some? && volatility.value < 1.0 then Some(StableMood)
    else None
  }

  /** What the detectors look at: the size of the recent window, the means
      of the recent and older windows, the recent window's dominant activity
      entry and its mood volatility. */
  datatype Window = Window(
    size: nat,
    recentFocus: real, olderFocus: real,
    recentStress: real, olderStress: real,
    recentEnergy: real,
    dominant: Option<(string, nat)>,
    volatility: Option<real>)

  /** The windows of a history of at least three check-ins; an empty older
      window stands in with the recent mean. */
  function Summarize(data: seq<CheckIn>): (w: Window)
    requires |data| >= 3
    ensures w.size == |RecentWindow(data)| && 3 <= w.size <= 7
  {
    var recent := RecentWindow(data);
    Window(|recent|,
      Mean(recent, FocusLevel), OlderMean(data, FocusLevel),
      Mean(recent, StressLevel), OlderMean(data, StressLevel),
      Mean(recent, EnergyLevel),
      Dominant(CountActivitiesOf(recent)),
      MoodVolatility(recent))
  }

  /** The five detectors in the order they run. */
  function Detectors(w: Window): (rules: seq<Option<Pattern>>)
    ensures |rules| == 5
  {
    [ FocusPattern(w.recentFocus, w.olderFocus),
      StressPattern(w.recentStress, w.olderStress),
      EnergyPattern(w.recentEnergy),
      RoutinePattern(w.dominant, w.size),
      MoodPattern(w.volatility) ]
  }

  /** The k-th rule only ever produces a pattern of the k-th type. */
  ghost predicate RanksMatch(rules: seq<Option<Pattern>>)
  {
    forall k :: 0 <= k < |rules| && rules[k].Some? ==> rules[k].value.Type().Rank() == k
  }

  lemma DetectorsRanked(w: Window)
    ensures RanksMatch(Detectors(w))
  {
    var rules := Detectors(w);
    assert rules[0] == FocusPattern(w.recentFocus, w.olderFocus);
    assert rules[1] == StressPattern(w.recentStress, w.olderStress);
    assert rules[2] == EnergyPattern(w.recentEnergy);
    assert rules[3] == RoutinePattern(w.dominant, w.size);
    assert rules[4] == MoodPattern(w.volatility);
  }

  /** analyzePatterns: the insufficient-data card below three check-ins,
      otherwise every detector's card in order, or the stable-patterns card
      when none fires. */
  function Analyze(data: seq<CheckIn>): (patterns: seq<Pattern>)
    ensures 1 <= |patterns| <= 5
    ensures |data| < 3 ==> patterns == [InsufficientData]
  {
    if |data| < 3 then [InsufficientData] else Report(Detectors(Summarize(data)))
  }

  /** The cards the detectors pushed, or the stable-patterns card when none
      was. */
  function Report(rules: seq<Option<Pattern>>): (patterns: seq<Pattern>)
    ensures 1 <= |patterns| <= if |rules| == 0 then 1 else |rules|
  {
    var found := Somes(rules);
    if found == [] then [StablePatterns] else found
  }

  predicate HasPattern(patterns: seq<Pattern>, kind: PatternType, trend: Trend)
  {
    exists i :: 0 <= i < |patterns| && patterns[i].Type() == kind && patterns[i].Direction() == trend
  }

  predicate HasKind(patterns: seq<Pattern>, kind: PatternType)
  {
    exists i :: 0 <= i < |patterns| && patterns[i].Type() == kind
  }

  function TypeRank(p: Pattern): int
  {
    p.Type().Rank()
  }

  lemma RankDetermines(a: PatternType, b: PatternType)
    requires a.Rank() == b.Rank()
    ensures a == b
  {
  }

  /** Over any rule list whose k-th rule only produces type k, the report
      holds a card of a type (and trend) exactly when that type's rule
      produced one. */
  lemma ReportIff(rules: seq<Option<Pattern>>, kind: PatternType, trend: Trend)
    requires kind != Info && kind.Rank() < |rules| && RanksMatch(rules)
    ensures HasPattern(Report(rules), kind, trend) <==>
      (rules[kind.Rank()].Some? && rules[kind.Rank()].value.Direction() == trend)
    ensures HasKind(Report(rules), kind) <==> rules[kind.Rank()].Some?
  {
    if rules[kind.Rank()].Some? {
      ShownWhenFired(rules, kind);
    }
    if HasKind(Report(rules), kind) {
      var i :| 0 <= i < |Report(rules)| && Report(rules)[i].Type() == kind;
      ReportedWasFired(rules, Report(rules)[i]);
    }
    if HasPattern(Report(rules), kind, trend) {
      var i :| 0 <= i < |Report(rules)| && Report(rules)[i].Type() == kind && Report(rules)[i].Direction() == trend;
      ReportedWasFired(rules, Report(rules)[i]);
    }
  }

  /** A rule that fires has its card, of its own type, in the report. */
  lemma ShownWhenFired(rules: seq<Option<Pattern>>, kind: PatternType)
    requires kind.Rank() < |rules| && RanksMatch(rules) && rules[kind.Rank()].Some?
    ensures HasKind(Report(rules), kind)
    ensures HasPattern(Report(rules), kind, rules[kind.Rank()].value.Direction())
  {
    var x := rules[kind.Rank()].value;
    SomesComplete(rules, kind.Rank());
    RankDetermines(x.Type(), kind);
    assert Report(rules) == Somes(rules);
    var i :| 0 <= i < |Report(rules)| && Report(rules)[i] == x;
  }

  /** A reported card that is not the fallback comes from the rule at its
      type's rank. */
  lemma ReportedWasFired(rules: seq<Option<Pattern>>, x: Pattern)
    requires RanksMatch(rules) && x in Report(rules) && x.Type() != Info
    ensures x.Type().Rank() < |rules| && rules[x.Type().Rank()] == Some(x)
  {
    assert Report(rules) == Somes(rules);
    FiredAt(rules, x);
  }

  /** A pushed card comes from the rule at its type's rank. */
  lemma FiredAt(rules: seq<Option<Pattern>>, x: Pattern)
    requires RanksMatch(rules) && x in Somes(rules)
    ensures x.Type().Rank() < |rules| && rules[x.Type().Rank()] == Some(x)
  {
    SomesSound(rules, x);
    var k :| 0 <= k < |rules| && rules[k] == Some(x);
    assert rules[k].value.Type().Rank() == k;
  }

  /** Over any five rules whose k-th rule only produces type k, the pushed
      cards are in strictly increasing type order and none is an info card. */
  lemma FoundOrdered(rules: seq<Option<Pattern>>)
    requires |rules| == 5 && RanksMatch(rules)
    ensures forall i, j :: 0 <= i < j < |Somes(rules)| ==> Somes(rules)[i].Type().Rank() < Somes(rules)[j].Type().Rank()
    ensures forall i :: 0 <= i < |Somes(rules)| ==> Somes(rules)[i].Type() != Info
  {
    SomesOrdered(rules, TypeRank);
  }

  /** Over any five such rules, the report is in strictly increasing type
      order, and holds the stable-patterns card exactly when no rule fires,
      and then alone. */
  lemma ReportShape(rules: seq<Option<Pattern>>)
    requires |rules| == 5 && RanksMatch(rules)
    ensures var patterns := Report(rules);
      && (forall i, j :: 0 <= i < j < |patterns| ==> patterns[i].Type().Rank() < patterns[j].Type().Rank())
      && (HasKind(patterns, Info) <==> patterns == [StablePatterns])
      && (HasKind(patterns, Info) <==> forall k :: 0 <= k < 5 ==> rules[k].None?)
  {
    var found := Somes(rules);
    SomesEmpty(rules);
    FoundOrdered(rules);
    if found != [] {
      assert Report(rules) == found;
      assert found[0].Type() != Info;
    } else {
      assert Report(rules)[0].Type() == Info;
    }
  }

  /** A detector's type and trend appear exactly when that detector produces them. */
  lemma DetectorIff(w: Window, kind: PatternType, trend: Trend)
    requires kind != Info
    ensures HasPattern(Report(Detectors(w)), kind, trend) <==>
      (Detectors(w)[kind.Rank()].Some? && Detectors(w)[kind.Rank()].value.Direction() == trend)
    ensures HasKind(Report(Detectors(w)), kind) <==> Detectors(w)[kind.Rank()].Some?
  {
    DetectorsRanked(w);
    ReportIff(Detectors(w), kind, trend);
  }

  /** For three or more check-ins: at most one card per detector, in the
      order focus, stress, energy, routine, mood; the stable-patterns card
      appears exactly when no detector fires, and then alone. */
  lemma AnalyzeShape(data: seq<CheckIn>)
    requires |data| >= 3
    ensures var patterns := Analyze(data);
      && (forall i, j :: 0 <= i < j < |patterns| ==> patterns[i].Type().Rank() < patterns[j].Type().Rank())
      && (HasKind(patterns, Info) <==> patterns == [StablePatterns])
      && (HasKind(patterns, Info) <==> forall k :: 0 <= k < 5 ==> Detectors(Summarize(data))[k].None?)
  {
    DetectorsRanked(Summarize(data));
    ReportShape(Detectors(Summarize(data)));
  }

  /** The trend rules on the window's means. For stress, rising is an adverse
      trend (down) and falling a good one (up); energy looks at the recent
      mean only. */
  lemma TrendRules(w: Window)
    ensures var patterns := Report(Detectors(w));
      && (HasPattern(patterns, Focus, Up) <==> w.recentFocus > w.olderFocus + 1.0)
      && (HasPattern(patterns, Focus, Down) <==> w.recentFocus < w.olderFocus - 1.0)
      && (HasPattern(patterns, Stress, Down) <==> w.recentStress > w.olderStress + 1.0)
      && (HasPattern(patterns, Stress, Up) <==> w.recentStress < w.olderStress - 1.0)
      && (HasPattern(patterns, Energy, Down) <==> w.recentEnergy < 4.0)
      && (HasPattern(patterns, Energy, Up) <==> w.recentEnergy > 7.0)
  {
    var rules := Detectors(w);
    assert rules[0] == FocusPattern(w.recentFocus, w.olderFocus);
    assert rules[1] == StressPattern(w.recentStress, w.olderStress);
    assert rules[2] == EnergyPattern(w.recentEnergy);
    DetectorIff(w, Focus, Up);
    DetectorIff(w, Focus, Down);
    DetectorIff(w, Stress, Down);
    DetectorIff(w, Stress, Up);
    DetectorIff(w, Energy, Down);
    DetectorIff(w, Energy, Up);
  }

  /** The focus-improving card reports the gain rounded to a tenth of a point. */
  lemma FocusGainShown(w: Window, gain: nat)
    requires FocusImproving(gain) in Report(Detectors(w))
    ensures gain == JsRound((w.recentFocus - w.olderFocus) * 10.0) && gain >= 10
  {
    var rules := Detectors(w);
    assert Report(rules) == Somes(rules);
    SomesSound(rules, FocusImproving(gain));
    DetectorsRanked(w);
    var k :| 0 <= k < |rules| && rules[k] == Some(FocusImproving(gain));
    assert k == 0;
  }

  /** Routine is detected exactly when the dominant activity's count exceeds
      60% of the recent window, and the card names that activity. */
  lemma RoutineRule(w: Window)
    ensures HasKind(Report(Detectors(w)), Routine) <==>
      w.dominant.Some? && 5 * w.dominant.value.1 > 3 * w.size
    ensures forall a :: RoutineDetected(a) in Report(Detectors(w)) ==> a == w.dominant.value.0
  {
    var rules := Detectors(w);
    DetectorIff(w, Routine, Stable);
    assert rules[3] == RoutinePattern(w.dominant, w.size);
    forall a | RoutineDetected(a) in Report(rules) ensures a == w.dominant.value.0 {
      assert Report(rules) == Somes(rules);
      SomesSound(rules, RoutineDetected(a));
      DetectorsRanked(w);
      var k :| 0 <= k < |rules| && rules[k] == Some(RoutineDetected(a));
      assert k == 3;
    }
  }

  /** Mood fluctuations (down) above a mean step of 2, stable mood (up) below
      1, and neither when the volatility is NaN. */
  lemma MoodRule(w: Window)
    ensures var patterns := Report(Detectors(w));
      && (HasPattern(patterns, Mood, Down) <==> w.volatility.Some? && w.volatility.value > 2.0)
      && (HasPattern(patterns, Mood, Up) <==> w.volatility.Some? && w.volatility.value < 1.0)
  {
    assert Detectors(w)[4] == MoodPattern(w.volatility);
    DetectorIff(w, Mood, Down);
    DetectorIff(w, Mood, Up);
  }

  /** The windows a history yields: the last seven check-ins' size, means,
      dominant activity and volatility, and the means of the seven before
      them, or the recent means again when there are no earlier check-ins.
      The volatility is NaN exactly when some recent mood is unknown. */
  lemma SummarizeWindows(data: seq<CheckIn>)
    requires |data| >= 3
    ensures var w, recent := Summarize(data), RecentWindow(data);
      && recent == data[|data| - w.size..]
      && w.recentFocus == Mean(recent, FocusLevel)
      && w.olderFocus == (if |data| > 7 then Mean(OlderWindow(data), FocusLevel) else w.recentFocus)
      && w.recentStress == Mean(recent, StressLevel)
      && w.olderStress == (if |data| > 7 then Mean(OlderWindow(data), StressLevel) else w.recentStress)
      && w.recentEnergy == Mean(recent, EnergyLevel)
      && w.dominant == Dominant(CountActivitiesOf(recent))
      && (w.volatility.None? <==> exists k :: 0 <= k < |recent| && recent[k].mood !in CheckInMoods)
  {
    MoodStepsDefined(RecentWindow(data));
  }

  /** With seven or fewer check-ins the older window is empty, so the older
      mean is the recent mean and no focus or stress card is shown. */
  lemma ShortHistoryHasNoTrend(data: seq<CheckIn>)
    requires 3 <= |data| <= 7
    ensures !HasKind(Analyze(data), Focus) && !HasKind(Analyze(data), Stress)
  {
    var w := Summarize(data);
    assert w.olderFocus == w.recentFocus && w.olderStress == w.recentStress;
    DetectorIff(w, Focus, Up);
    DetectorIff(w, Stress, Up);
    assert Detectors(w)[0] == FocusPattern(w.recentFocus, w.olderFocus);
    assert Detectors(w)[1] == StressPattern(w.recentStress, w.olderStress);
  }

  /** Five steady check-ins with alternating good and neutral moods and no
      activity above 60%: no detector fires, so the fallback is shown. */
  const SteadyWeek: seq<CheckIn> := [
    CheckIn("t1", "Good", 5, 5, "Working", 5),
    CheckIn("t2", "Neutral", 5, 5, "Resting", 5),
    CheckIn("t3", "Good", 5, 5, "Working", 5),
    CheckIn("t4", "Neutral", 5, 5, "Exercising", 5),
    CheckIn("t5", "Good", 5, 5, "Socializing", 5)]

  lemma SteadyWeekIsStable()
    ensures Analyze(SteadyWeek) == [StablePatterns]
  {
    SteadyWeekWindow();
    QuietWindow(Summarize(SteadyWeek));
  }

  /** No detector's threshold is crossed: both trend differences within
      [-1, 1], the recent energy within [4, 7], no routine, and a volatility
      that is NaN or within [1, 2]. */
  predicate Quiet(w: Window)
  {
    && w.olderFocus - 1.0 <= w.recentFocus <= w.olderFocus + 1.0
    && w.olderStress - 1.0 <= w.recentStress <= w.olderStress + 1.0
    && 4.0 <= w.recentEnergy <= 7.0
    && RoutinePattern(w.dominant, w.size) == None
    && (w.volatility.None? || 1.0 <= w.volatility.value <= 2.0)
  }

  /** The report is the stable-patterns card alone exactly when the window
      is quiet. */
  lemma QuietWindow(w: Window)
    ensures Report(Detectors(w)) == [StablePatterns] <==> Quiet(w)
  {
    var rules := Detectors(w);
    assert rules[0] == FocusPattern(w.recentFocus, w.olderFocus);
    assert rules[1] == StressPattern(w.recentStress, w.olderStress);
    assert rules[2] == EnergyPattern(w.recentEnergy);
    assert rules[3] == RoutinePattern(w.dominant, w.size);
    assert rules[4] == MoodPattern(w.volatility);
    SomesEmpty(rules);
    DetectorsRanked(w);
    ReportShape(rules);
    if Report(rules) == [StablePatterns] {
      assert Report(rules)[0].Type() == Info;
    }
  }

  lemma SteadyWeekWindow()
    ensures var w := Summarize(SteadyWeek);
      && w.olderFocus == w.recentFocus && w.olderStress == w.recentStress
      && w.recentEnergy == 5.0
      && RoutinePattern(w.dominant, w.size) == None
      && w.volatility == Some(1.0)
      && Quiet(w)
  {
    assert RecentWindow(SteadyWeek) == SteadyWeek;
    SteadyWeekEnergy();
    SteadyWeekMood();
    SteadyWeekRoutine();
  }

  lemma SteadyWeekPrefixes()
    ensures SteadyWeek[..4][..3] == SteadyWeek[..3]
    ensures SteadyWeek[..3][..2] == SteadyWeek[..2]
    ensures SteadyWeek[..2][..1] == SteadyWeek[..1]
    ensures SteadyWeek[..1][..0] == []
    ensures SteadyWeek[..|SteadyWeek| - 1] == SteadyWeek[..4]
  {
  }

  lemma SteadyWeekEnergy()
    ensures Mean(SteadyWeek, EnergyLevel) == 5.0
  {
    var data := SteadyWeek;
    SteadyWeekPrefixes();
    assert Total(data[..1], EnergyLevel) == 5;
    assert Total(data[..2], EnergyLevel) == 10;
    assert Total(data[..3], EnergyLevel) == 15;
    assert Total(data[..4], EnergyLevel) == 20;
    assert Total(data, EnergyLevel) == 25;
  }

  lemma SteadyWeekMood()
    ensures MoodVolatility(SteadyWeek) == Some(1.0)
  {
    var data := SteadyWeek;
    SteadyWeekPrefixes();
    assert MoodSteps(data[..2]) == Some(1);
    assert MoodSteps(data[..3]) == Some(2);
    assert MoodSteps(data[..4]) == Some(3);
    assert MoodSteps(data) == Some(4);
  }

  /** No activity occurs more than twice in the steady week. */
  lemma SteadyWeekAtMostTwice(a: string)
    ensures Occurrences(SteadyWeek, a) <= 2
  {
    var data := SteadyWeek;
    SteadyWeekPrefixes();
    assert Occurrences(data[..1], a) <= 1;
    assert Occurrences(data[..2], a) <= 1 || a == "Working" || a == "Resting";
    assert Occurrences(data[..2], a) <= 1;
    assert Occurrences(data[..3], a) <= 1 || a == "Working";
    assert Occurrences(data[..4], a) <= 2;
    assert "Working" != "Socializing";
  }

  lemma SteadyWeekRoutine()
    ensures RoutinePattern(Dominant(CountActivitiesOf(SteadyWeek)), 5) == None
  {
    DominantIsMostFrequent(SteadyWeek);
    SteadyWeekAtMostTwice(Dominant(CountActivitiesOf(SteadyWeek)).value.0);
  }

  // ---------------------------------------------------------------------
  // Summary statistics

  datatype Stats = Stats(avgFocus: real, avgStress: real, avgEnergy: real, mostCommonActivity: string, totalCheckIns: nat)

  const InitialStats := Stats(0.0, 0.0, 0.0, "", 0)

  /** `Math.round(x * 10) / 10`. */
  function RoundToTenth(x: real): (r: real)
    ensures (r * 10.0).Floor as real == r * 10.0
    ensures x - 0.05 < r <= x + 0.05
  {
    JsRound(x * 10.0) as real / 10.0
  }

  /** calculateStats: nothing on empty data; otherwise the three means
      rounded to one decimal, the most frequent activity of the whole history
      (ties to the first seen) and the number of check-ins. */
  method CalculateStats(data: seq<CheckIn>, current: Stats) returns (stats: Stats)
    ensures data == [] ==> stats == current
    ensures data != [] ==>
      && stats.totalCheckIns == |data|
      && stats.avgFocus == RoundToTenth(Mean(data, FocusLevel))
      && stats.avgStress == RoundToTenth(Mean(data, StressLevel))
      && stats.avgEnergy == RoundToTenth(Mean(data, EnergyLevel))
      && stats.mostCommonActivity == Dominant(CountActivitiesOf(data)).value.0
  {
    if |data| == 0 {
      return current;
    }
    var avgFocus := Mean(data, FocusLevel);
    var avgStress := Mean(data, StressLevel);
    var avgEnergy := Mean(data, EnergyLevel);
    var counts := CountActivities(data);
    assert data[0].activity in counts.counts;
    var top := Dominant(counts);
    stats := Stats(RoundToTenth(avgFocus), RoundToTenth(avgStress), RoundToTenth(avgEnergy), top.value.0, |data|);
  }
}
