/** The check-in monitor: a form for one momentary self-report, the stored
    check-in history with a newest-first window of at most five entries, and
    seven recommendation rules over the form and that window, with a fallback. */
module Monitor {
  import opened Common
  import opened Records

  // ---------------------------------------------------------------------
  // Recommendations

  /** Which rule produced a recommendation; it stands for the `icon` field,
      which identifies the rule on the page. */
  datatype Advice = Focus | Stress | Energy | Mood | Environment | Rest | PersistentStress | Balanced
  {
    /** Position of the rule in evaluation order; the fallback comes last. */
    function Rank(): nat
    {
      match this
      case Focus => 0
      case Stress => 1
      case Energy => 2
      case Mood => 3
      case Environment => 4
      case Rest => 5
      case PersistentStress => 6
      case Balanced => 7
    }
  }

  /** A recommendation card. Its title and text are fixed by the rule that
      produced it, so they are members of the card rather than fields. */
  datatype Recommendation = Recommendation(advice: Advice, priority: Priority)
  {
    function Title(): string
    {
      match advice
      case Focus => "Boost Your Focus"
      case Stress => "Reduce Stress Now"
      case Energy => "Energy Boost"
      case Mood => "Improve Your Mood"
      case Environment => "Optimize Work Environment"
      case Rest => "Better Rest Practices"
      case PersistentStress => "Persistent Stress Detected"
      case Balanced => "You're Doing Great!"
    }

    function Description(): string
    {
      match advice
      case Focus => FocusAdvice
      case Stress => StressAdvice
      case Energy => EnergyAdvice
      case Mood => MoodAdvice
      case Environment => EnvironmentAdvice
      case Rest => RestAdvice
      case PersistentStress => PersistentStressAdvice
      case Balanced => BalancedAdvice
    }
  }

  /** The fixed advice texts of the rules. */
  const FocusAdvice := "Try the Pomodoro technique: 25 minutes of focused work followed by a 5-minute break. Eliminate distractions and use focus music or white noise."
  const StressAdvice := "Take 5 deep breaths: Inhale for 4 counts, hold for 4, exhale for 6. Step away from your screen and do light stretching for 2 minutes."
  const EnergyAdvice := "Take a 10-minute walk outside for natural light exposure. Drink a glass of water and have a healthy snack with protein and complex carbs."
  const MoodAdvice := "Listen to uplifting music, practice gratitude by writing 3 things you're grateful for, or connect with a friend for a quick chat."
  const EnvironmentAdvice := "Ensure proper lighting, adjust your posture, and organize your workspace. Use website blockers for distracting sites during focus time."
  const RestAdvice := "Practice progressive muscle relaxation: tense and release each muscle group. Try a guided meditation or gentle yoga for 10 minutes."
  const PersistentStressAdvice := "Your stress levels have been elevated. Consider scheduling regular breaks, practicing mindfulness, or speaking with a wellness professional."
  const BalancedAdvice := "Your current state looks balanced. Keep maintaining healthy habits: stay hydrated, take regular breaks, and practice mindfulness."

  /** The single low-priority entry shown when no rule fires. */
  const DoingGreat := Recommendation(Balanced, Low)

  /** The values of the check-in form. */
  datatype Form = Form(mood: string, focusLevel: int, stressLevel: int, energy: int, activity: string)

  /** Sum of the stress levels of a list of check-ins (the `reduce` fold). */
  function StressSum(checkIns: seq<CheckIn>): int
  {
    if checkIns == [] then 0 else StressSum(checkIns[..|checkIns| - 1]) + checkIns[|checkIns| - 1].stressLevel
  }

  /** The persistent-stress test: at least three recent check-ins, and the
      mean stress of the newest three above 6. */
  predicate PersistentlyStressed(recent: seq<CheckIn>)
  {
    |recent| >= 3 && StressSum(recent[..3]) as real / 3.0 > 6.0
  }

  function FocusRule(f: Form): (r: Option<Recommendation>)
    ensures r.Some? <==> f.focusLevel < 4
    ensures r.Some? ==> r.value.advice == Focus && r.value.priority == High
  {
    if f.focusLevel < 4 then Some(Recommendation(Focus, High)) else None
  }

  function StressRule(f: Form): (r: Option<Recommendation>)
    ensures r.Some? <==> f.stressLevel > 7
    ensures r.Some? ==> r.value.advice == Stress && r.value.priority == High
  {
    if f.stressLevel > 7 then Some(Recommendation(Stress, High)) else None
  }

  function EnergyRule(f: Form): (r: Option<Recommendation>)
    ensures r.Some? <==> f.energy < 4
    ensures r.Some? ==> r.value.advice == Energy && r.value.priority == High
  {
    if f.energy < 4 then Some(Recommendation(Energy, High)) else None
  }

  function MoodRule(f: Form): (r: Option<Recommendation>)
    ensures r.Some? <==> f.mood == "Poor" || f.mood == "Stressed"
    ensures r.Some? ==> r.value.advice == Mood && r.value.priority == High
  {
    if f.mood == "Poor" || f.mood == "Stressed" then
      Some(Recommendation(Mood, High))
    else None
  }

  function EnvironmentRule(f: Form): (r: Option<Recommendation>)
    ensures r.Some? <==> f.activity == "Working" && f.focusLevel < 5
    ensures r.Some? ==> r.value.advice == Environment && r.value.priority == Medium
  {
    if f.activity == "Working" && f.focusLevel < 5 then
      Some(Recommendation(Environment, Medium))
    else None
  }

  function RestRule(f: Form): (r: Option<Recommendation>)
    ensures r.Some? <==> f.activity == "Resting" && f.stressLevel > 5
    ensures r.Some? ==> r.value.advice == Rest && r.value.priority == Medium
  {
    if f.activity == "Resting" && f.stressLevel > 5 then
      Some(Recommendation(Rest, Medium))
    else None
  }

  function PersistentStressRule(recent: seq<CheckIn>): (r: Option<Recommendation>)
    ensures r.Some? <==> PersistentlyStressed(recent)
    ensures r.Some? ==> r.value.advice == PersistentStress && r.value.priority == High
  {
    if PersistentlyStressed(recent) then
      Some(Recommendation(PersistentStress, High))
    else None
  }

  /** The seven rules in evaluation order. */
  function Rules(f: Form, recent: seq<CheckIn>): (rules: seq<Option<Recommendation>>)
    ensures |rules| == 7
  {
    [FocusRule(f), StressRule(f), EnergyRule(f), MoodRule(f), EnvironmentRule(f), RestRule(f), PersistentStressRule(recent)]
  }

  /** What the rule at position k produces: the advice of rank k, with its fixed priority. */
  ghost predicate RuleShape(k: int, r: Recommendation)
  {
    && r.advice.Rank() == k
    && r.priority == (if r.advice in {Environment, Rest} then Medium else High)
  }

  lemma RulesRanked(f: Form, recent: seq<CheckIn>)
    ensures forall k :: 0 <= k < 7 && Rules(f, recent)[k].Some? ==> RuleShape(k, Rules(f, recent)[k].value)
  {
    var rules := Rules(f, recent);
    forall k | 0 <= k < 7 && rules[k].Some? ensures RuleShape(k, rules[k].value) {
      if k == 0 { assert rules[k] == FocusRule(f); }
      else if k == 1 { assert rules[k] == StressRule(f); }
      else if k == 2 { assert rules[k] == EnergyRule(f); }
      else if k == 3 { assert rules[k] == MoodRule(f); }
      else if k == 4 { assert rules[k] == EnvironmentRule(f); }
      else if k == 5 { assert rules[k] == RestRule(f); }
      else { assert rules[k] == PersistentStressRule(recent); }
    }
  }

  /** generateRecommendations: every rule that fires, in rule order, or the
      single "You're Doing Great!" entry when none does. */
  function Recommendations(f: Form, recent: seq<CheckIn>): (recs: seq<Recommendation>)
    ensures 1 <= |recs| <= 7
  {
    var fired := Somes(Rules(f, recent));
    if fired == [] then [DoingGreat] else fired
  }

  predicate HasAdvice(recs: seq<Recommendation>, a: Advice)
  {
    exists i :: 0 <= i < |recs| && recs[i].advice == a
  }

  /** The k-th rule of a list only ever produces the advice of rank k. */
  ghost predicate AdviceRanked(rules: seq<Option<Recommendation>>)
  {
    forall k :: 0 <= k < |rules| && rules[k].Some? ==> rules[k].value.advice.Rank() == k
  }

  /** Over any rule list whose k-th rule only produces the advice of rank k,
      an advice is among the fired rules exactly when the rule at its rank fires. */
  lemma {:induction false} FiredIff(rules: seq<Option<Recommendation>>, a: Advice)
    requires AdviceRanked(rules)
    ensures HasAdvice(Somes(rules), a) <==> a.Rank() < |rules| && rules[a.Rank()].Some?
  {
    var recs := Somes(rules);
    if a.Rank() < |rules| && rules[a.Rank()].Some? {
      SomesComplete(rules, a.Rank());
      var i :| 0 <= i < |recs| && recs[i] == rules[a.Rank()].value;
    }
    if HasAdvice(recs, a) {
      var i :| 0 <= i < |recs| && recs[i].advice == a;
      SomesSound(rules, recs[i]);
    }
  }

  /** A rule's advice appears among the fired rules exactly when the rule at
      its rank fires, and the fallback never does. */
  lemma {:induction false} AdviceIffRule(f: Form, recent: seq<CheckIn>, a: Advice)
    ensures a != Balanced ==> (HasAdvice(Somes(Rules(f, recent)), a) <==> Rules(f, recent)[a.Rank()].Some?)
    ensures !HasAdvice(Somes(Rules(f, recent)), Balanced)
  {
    var rules := Rules(f, recent);
    RulesRanked(f, recent);
    assert AdviceRanked(rules) by {
      forall k | 0 <= k < |rules| && rules[k].Some? ensures rules[k].value.advice.Rank() == k {
        assert RuleShape(k, rules[k].value);
      }
    }
    FiredIff(rules, a);
    FiredIff(rules, Balanced);
  }

  /** A rule's advice is shown exactly when the rule at its rank fires: a
      fired rule suppresses the fallback, and the fallback carries no rule's advice. */
  lemma ShownIffFired(f: Form, recent: seq<CheckIn>, a: Advice)
    requires a != Balanced
    ensures HasAdvice(Recommendations(f, recent), a) <==> Rules(f, recent)[a.Rank()].Some?
  {
    var fired := Somes(Rules(f, recent));
    AdviceIffRule(f, recent, a);
    if fired == [] {
      assert Recommendations(f, recent) == [DoingGreat];
      assert !HasAdvice(fired, a);
    }
  }

  /** The fallback appears exactly when no rule fired, and then it is the only entry. */
  lemma FallbackIffQuiet(f: Form, recent: seq<CheckIn>)
    ensures var recs := Recommendations(f, recent);
      && (HasAdvice(recs, Balanced) <==> recs == [DoingGreat])
      && (HasAdvice(recs, Balanced) <==> forall k :: 0 <= k < 7 ==> Rules(f, recent)[k].None?)
  {
    var rules := Rules(f, recent);
    var fired, recs := Somes(rules), Recommendations(f, recent);
    SomesEmpty(rules);
    AdviceIffRule(f, recent, Balanced);
    if fired == [] {
      assert recs[0].advice == Balanced;
    } else {
      assert HasAdvice([DoingGreat], Balanced) by {
        assert [DoingGreat][0].advice == Balanced;
      }
    }
  }

  /** When each rule fires, stated on the form and the recent window. */
  lemma RuleConditions(f: Form, recent: seq<CheckIn>)
    ensures var rules := Rules(f, recent);
      && (rules[Focus.Rank()].Some? <==> f.focusLevel < 4)
      && (rules[Stress.Rank()].Some? <==> f.stressLevel > 7)
      && (rules[Energy.Rank()].Some? <==> f.energy < 4)
      && (rules[Mood.Rank()].Some? <==> f.mood == "Poor" || f.mood == "Stressed")
      && (rules[Environment.Rank()].Some? <==> f.activity == "Working" && f.focusLevel < 5)
      && (rules[Rest.Rank()].Some? <==> f.activity == "Resting" && f.stressLevel > 5)
      && (rules[PersistentStress.Rank()].Some? <==> PersistentlyStressed(recent))
  {
  }

  /** The fallback appears exactly when no rule fired, and then it is the
      only entry; otherwise each rule's advice appears exactly when its
      condition, stated on the form and the recent window, holds. */
  lemma RecommendationTriggers(f: Form, recent: seq<CheckIn>)
    ensures var recs := Recommendations(f, recent);
      && (HasAdvice(recs, Balanced) <==> recs == [DoingGreat])
      && (HasAdvice(recs, Balanced) <==> forall k :: 0 <= k < 7 ==> Rules(f, recent)[k].None?)
      && (HasAdvice(recs, Focus) <==> f.focusLevel < 4)
      && (HasAdvice(recs, Stress) <==> f.stressLevel > 7)
      && (HasAdvice(recs, Energy) <==> f.energy < 4)
      && (HasAdvice(recs, Mood) <==> f.mood == "Poor" || f.mood == "Stressed")
      && (HasAdvice(recs, Environment) <==> f.activity == "Working" && f.focusLevel < 5)
      && (HasAdvice(recs, Rest) <==> f.activity == "Resting" && f.stressLevel > 5)
      && (HasAdvice(recs, PersistentStress) <==> PersistentlyStressed(recent))
  {
    FallbackIffQuiet(f, recent);
    RuleConditions(f, recent);
    ShownIffFired(f, recent, Focus);
    ShownIffFired(f, recent, Stress);
    ShownIffFired(f, recent, Energy);
    ShownIffFired(f, recent, Mood);
    ShownIffFired(f, recent, Environment);
    ShownIffFired(f, recent, Rest);
    ShownIffFired(f, recent, PersistentStress);
  }

  /** Rules fire in fixed order (focus, stress, energy, mood, environment,
      rest, persistent stress) and are never re-sorted; each priority is
      fixed by its rule, the fallback's being low. */
  lemma RecommendationsInRuleOrder(f: Form, recent: seq<CheckIn>)
    ensures var recs := Recommendations(f, recent);
      && (forall i, j :: 0 <= i < j < |recs| ==> recs[i].advice.Rank() < recs[j].advice.Rank())
      && (forall r :: r in recs ==>
            r.priority == (if r.advice == Balanced then Low else if r.advice in {Environment, Rest} then Medium else High))
  {
    var rules := Rules(f, recent);
    RulesRanked(f, recent);
    SomesOrdered(rules, (r: Recommendation) => r.advice.Rank() as int);
    forall r: Recommendation | r in Somes(rules)
      ensures r.priority == (if r.advice in {Environment, Rest} then Medium else High) && r.advice != Balanced
    {
      SomesSound(rules, r);
      var k :| 0 <= k < 7 && rules[k] == Some(r);
      assert RuleShape(k, r);
    }
  }

  /** The mean of the newest three stress levels exceeds 6 exactly when
      their sum exceeds 18. */
  lemma PersistentStressThreshold(recent: seq<CheckIn>)
    requires |recent| >= 3
    ensures PersistentlyStressed(recent) <==> recent[0].stressLevel + recent[1].stressLevel + recent[2].stressLevel > 18
  {
    var w := recent[..3];
    assert StressSum(w[..1]) == w[0].stressLevel by { assert w[..1][..0] == []; }
    assert StressSum(w[..2]) == StressSum(w[..1]) + w[1].stressLevel by { assert w[..2][..1] == w[..1]; }
    assert StressSum(w) == StressSum(w[..2]) + w[2].stressLevel by { assert w[..|w| - 1] == w[..2]; }
  }

  /** getMoodColor: the five check-in moods have their colours, anything else is "muted". */
  function MoodColor(mood: string): (color: string)
    ensures color == "muted" <==> mood !in CheckInMoods
    ensures color == "wellness-poor" <==> mood == "Stressed" || mood == "Poor"
    ensures mood == "Excellent" ==> color == "wellness-excellent"
    ensures mood == "Good" ==> color == "wellness-good"
    ensures mood == "Neutral" ==> color == "wellness-fair"
  {
    match mood
    case "Excellent" => "wellness-excellent"
    case "Good" => "wellness-good"
    case "Neutral" => "wellness-fair"
    case "Stressed" => "wellness-poor"
    case "Poor" => "wellness-poor"
    case _ => "muted"
  }

  // ---------------------------------------------------------------------
  // Stored history and the recent window

  /** The elements of s, last first (Array.prototype.reverse). */
  function Backwards<T>(s: seq<T>): (r: seq<T>)
    ensures |r| == |s|
  {
    if s == [] then [] else [s[|s| - 1]] + Backwards(s[..|s| - 1])
  }

  /** Reversing keeps every element, with its multiplicity. */
  lemma {:induction false} BackwardsPermutes<T>(s: seq<T>)
    ensures multiset(Backwards(s)) == multiset(s)
  {
    if s != [] {
      BackwardsPermutes(s[..|s| - 1]);
      assert s == s[..|s| - 1] + [s[|s| - 1]];
    }
  }

  lemma {:induction false} BackwardsAt<T>(s: seq<T>, i: nat)
    requires i < |s|
    ensures Backwards(s)[i] == s[|s| - 1 - i]
  {
    if i > 0 {
      BackwardsAt(s[..|s| - 1], i - 1);
    }
  }

  function Min(a: int, b: int): int
  {
    if a <= b then a else b
  }

  /** `history.slice(-5).reverse()`: the newest five stored check-ins, newest first. */
  function NewestFirst(history: seq<CheckIn>): (recent: seq<CheckIn>)
    ensures |recent| == Min(5, |history|)
  {
    Backwards(history[|history| - Min(5, |history|)..])
  }

  /** The window holds min(5, n) entries and its i-th entry is the i-th newest. */
  lemma NewestFirstAt(history: seq<CheckIn>)
    ensures |NewestFirst(history)| == Min(5, |history|)
    ensures forall i :: 0 <= i < |NewestFirst(history)| ==> NewestFirst(history)[i] == history[|history| - 1 - i]
  {
    var tail := history[|history| - Min(5, |history|)..];
    forall i | 0 <= i < |tail| ensures NewestFirst(history)[i] == history[|history| - 1 - i] {
      BackwardsAt(tail, i);
    }
  }

  /** Prepending a new check-in to the first four window entries gives the
      window of the history with that check-in appended: the save path keeps
      the window the load path would rebuild. */
  lemma SaveKeepsWindow(history: seq<CheckIn>, c: CheckIn)
    ensures [c] + NewestFirst(history)[..Min(4, |NewestFirst(history)|)] == NewestFirst(history + [c])
  {
    var w, w' := NewestFirst(history), NewestFirst(history + [c]);
    var lhs := [c] + w[..Min(4, |w|)];
    NewestFirstAt(history);
    NewestFirstAt(history + [c]);
    assert |lhs| == |w'|;
    forall i | 0 <= i < |lhs| ensures lhs[i] == w'[i] {
      if i > 0 {
        assert lhs[i] == w[i - 1];
      }
    }
  }

  /** What saving produced: the two toasts of the page. */
  datatype SaveOutcome = ActivityRequired | Saved

  /** The monitor page: the form fields, the newest-first recent window, the
      current recommendations, and the "checkIns" storage key (None when the
      key is absent). */
  class MonitorPage {
    var mood: string
    var focusLevel: int
    var stressLevel: int
    var energy: int
    var activity: string
    var recentCheckIns: seq<CheckIn>
    var recommendations: seq<Recommendation>
    var stored: Option<seq<CheckIn>>

    /** The page as first rendered, over whatever storage holds. */
    constructor (store: Option<seq<CheckIn>>)
      ensures mood == "Neutral" && focusLevel == 5 && stressLevel == 5 && energy == 5 && activity == ""
      ensures recentCheckIns == [] && recommendations == [] && stored == store
    {
      mood, focusLevel, stressLevel, energy, activity := "Neutral", 5, 5, 5, "";
      recentCheckIns, recommendations := [], [];
      stored := store;
    }

    function CurrentForm(): Form
      reads this
    {
      Form(mood, focusLevel, stressLevel, energy, activity)
    }

    /** The stored history; an absent key reads as the empty list. */
    function History(): seq<CheckIn>
      reads this
    {
      if stored.Some? then stored.value else []
    }

    /** loadCheckIns: rebuild the window from storage; an absent key leaves it as it is. */
    method LoadCheckIns()
      modifies this`recentCheckIns
      ensures stored.Some? ==> recentCheckIns == NewestFirst(stored.value)
      ensures stored.None? ==> recentCheckIns == old(recentCheckIns)
    {
      if stored.Some? {
        recentCheckIns := NewestFirst(stored.value);
      }
    }

    /** saveCheckIn: without an activity nothing changes; otherwise the new
        check-in, stamped with the given time, is appended to the stored
        history and put in front of the first four window entries. */
    method SaveCheckIn(timestamp: string) returns (outcome: SaveOutcome)
      modifies this`stored, this`recentCheckIns
      ensures outcome == Saved <==> old(activity) != ""
      ensures outcome == ActivityRequired ==> stored == old(stored) && recentCheckIns == old(recentCheckIns)
      ensures outcome == Saved ==>
        var c := CheckIn(timestamp, mood, focusLevel, stressLevel, activity, energy);
        && stored == Some(old(History()) + [c])
        && recentCheckIns == [c] + old(recentCheckIns)[..Min(4, |old(recentCheckIns)|)]
      ensures outcome == Saved ==>
        && |History()| == |old(History())| + 1 && History()[..|old(History())|] == old(History())
        && 1 <= |recentCheckIns| <= 5 && recentCheckIns[0] == History()[|History()| - 1]
      ensures outcome == Saved && old(recentCheckIns) == NewestFirst(old(History())) ==>
        recentCheckIns == NewestFirst(History())
    {
      if activity == "" {
        return ActivityRequired;
      }
      var c := CheckIn(timestamp, mood, focusLevel, stressLevel, activity, energy);
      var checkIns := History();
      SaveKeepsWindow(checkIns, c);
      stored := Some(checkIns + [c]);
      recentCheckIns := [c] + recentCheckIns[..Min(4, |recentCheckIns|)];
      outcome := Saved;
    }

    /** generateRecommendations, recomputed from the form and the window. */
    method GenerateRecommendations()
      modifies this`recommendations
      ensures recommendations == Recommendations(CurrentForm(), recentCheckIns)
      ensures |recommendations| >= 1
    {
      recommendations := Recommendations(CurrentForm(), recentCheckIns);
    }
  }
}
