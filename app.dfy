/**
 * The app's session bookkeeping: what completing a focus session does to the
 * statistics and the garden, the language ring, the choice of the next plant
 * template and the milestone bar. Text from the generative-language service
 * (plant lore, coach messages) comes in as oracle functions.
 */
module AppComponent {
  import opened Wrappers
  import opened Types
  import opened Constants
  import TimerComponent

  // ---------------------------------------------------------------------------
  // Statistics and garden
  // ---------------------------------------------------------------------------

  /** The statistics after a completed session of `minutes`. */
  function CompleteStats(prev: UserStats, minutes: nat): (s: UserStats)
    ensures s.totalFocusTime == prev.totalFocusTime + minutes
    ensures s.sunlight == prev.sunlight + 2 * minutes
    ensures s.plantsGrown == prev.plantsGrown + 1
    ensures s.currentStreak == prev.currentStreak + 1
    ensures s.bestStreak >= prev.bestStreak && s.bestStreak >= s.currentStreak
    ensures s.bestStreak == prev.bestStreak || s.bestStreak == s.currentStreak
  {
    prev.(
      totalFocusTime := prev.totalFocusTime + minutes,
      sunlight := prev.sunlight + minutes * 2,
      plantsGrown := prev.plantsGrown + 1,
      currentStreak := prev.currentStreak + 1,
      bestStreak := Max(prev.bestStreak, prev.currentStreak + 1))
  }

  /** `Math.max` on two counts. */
  function Max(a: nat, b: nat): (m: nat)
    ensures m >= a && m >= b && (m == a || m == b)
  {
    if a >= b then a else b
  }

  /** The plant a completed session grows from the current template. */
  function NewPlant(template: PlantTemplate, id: string, lore: string, minutes: nat, discoveredAt: int): (p: Plant)
    ensures p.name == template.name && p.scientificName == template.scientificName
    ensures p.rarity == template.rarity && p.imageUrl == template.imageUrl
    ensures p.stage == Mature && p.focusMinutes == minutes && p.lore == lore
    ensures p.id == id && p.discoveredAt == discoveredAt
  {
    Plant(id, template.name, template.scientificName, lore, Mature, template.rarity,
      minutes, template.imageUrl, discoveredAt)
  }

  /** The garden with the new plant in front, most recent first. */
  function AddToGarden(plants: seq<Plant>, p: Plant): (r: seq<Plant>)
    ensures |r| == |plants| + 1 && r[0] == p && r[1..] == plants
  {
    [p] + plants
  }

  /** The focus minutes recorded across a garden. */
  function SumMinutes(plants: seq<Plant>): nat {
    if plants == [] then 0 else plants[0].focusMinutes + SumMinutes(plants[1..])
  }

  /**
   * What holds between the statistics and the garden of an app that started
   * from the initial statistics with an empty garden: one plant per session,
   * total focus time the plants' minutes, sunlight 50 plus two per minute, and
   * a streak that has never been broken.
   */
  predicate Consistent(stats: UserStats, plants: seq<Plant>) {
    && stats.plantsGrown == |plants|
    && stats.totalFocusTime == SumMinutes(plants)
    && stats.sunlight == InitialStats.sunlight + 2 * stats.totalFocusTime
    && stats.currentStreak == stats.plantsGrown
    && stats.bestStreak == stats.currentStreak
  }

  lemma InitialConsistent()
    ensures Consistent(InitialStats, [])
  {
  }

  /** A completion keeps statistics and garden consistent. */
  lemma CompletionKeepsConsistent(stats: UserStats, plants: seq<Plant>, p: Plant, minutes: nat)
    requires Consistent(stats, plants) && p.focusMinutes == minutes
    ensures Consistent(CompleteStats(stats, minutes), AddToGarden(plants, p))
  {
  }

  /** The statistics after a series of completed sessions, oldest first. */
  function CompleteAll(stats: UserStats, sessions: seq<nat>): UserStats
    decreases |sessions|
  {
    if sessions == [] then stats
    else CompleteAll(CompleteStats(stats, sessions[0]), sessions[1..])
  }

  function Sum(xs: seq<nat>): nat {
    if xs == [] then 0 else xs[0] + Sum(xs[1..])
  }

  /**
   * Over any series of sessions: total time grows by their sum, sunlight by
   * twice that, plants and streak by their number, and the best streak never
   * decreases and stays at least the streak.
   */
  lemma {:induction false} CompleteAllEffect(stats: UserStats, sessions: seq<nat>)
    requires stats.bestStreak >= stats.currentStreak
    ensures var s := CompleteAll(stats, sessions);
      && s.totalFocusTime == stats.totalFocusTime + Sum(sessions)
      && s.sunlight == stats.sunlight + 2 * Sum(sessions)
      && s.plantsGrown == stats.plantsGrown + |sessions|
      && s.currentStreak == stats.currentStreak + |sessions|
      && s.bestStreak >= stats.bestStreak
      && s.bestStreak >= s.currentStreak
    decreases |sessions|
  {
    if sessions != [] {
      CompleteAllEffect(CompleteStats(stats, sessions[0]), sessions[1..]);
    }
  }

  // ---------------------------------------------------------------------------
  // Language ring, next template, milestone
  // ---------------------------------------------------------------------------

  const Languages: seq<Language> := [En, Pt, Es]

  /** `indexOf`: the first position of x in s, or -1 when x is absent. */
  function IndexOf<T(==)>(s: seq<T>, x: T): (i: int)
    ensures -1 <= i < |s|
    ensures i == -1 <==> x !in s
    ensures 0 <= i ==> s[i] == x && forall j :: 0 <= j < i ==> s[j] != x
    decreases |s|
  {
    if s == [] then -1
    else if s[0] == x then 0
    else
      var k := IndexOf(s[1..], x);
      if k == -1 then -1 else k + 1
  }

  /** The language button: the next language of the ring en, pt, es. */
  function ToggleLang(lang: Language): (next: Language)
    ensures next != lang
  {
    var nextIdx := (IndexOf(Languages, lang) + 1) % |Languages|;
    Languages[nextIdx]
  }

  /** The ring is en -> pt -> es -> en, so three presses return to the start. */
  lemma ToggleLangRing(lang: Language)
    ensures ToggleLang(En) == Pt && ToggleLang(Pt) == Es && ToggleLang(Es) == En
    ensures ToggleLang(ToggleLang(ToggleLang(lang))) == lang
  {
  }

  /** `Math.floor(r * PLANT_TEMPLATES.length)` for a draw r of `Math.random()`, in [0, 1). */
  function NextTemplateIndex(r: real): (i: nat)
    requires 0.0 <= r < 1.0
    ensures i < |PlantTemplates|
  {
    var x := r * |PlantTemplates| as real;
    assert 0.0 <= x < |PlantTemplates| as real;
    x.Floor
  }

  /** The century-forest bar, `min(100, (totalFocusTime / 100) * 100)`, computed exactly. */
  function Milestone(totalFocusTime: nat): (pct: real)
    ensures 0.0 <= pct <= 100.0
    ensures totalFocusTime <= 100 ==> pct == totalFocusTime as real
    ensures totalFocusTime >= 100 ==> pct == 100.0
  {
    var share := (totalFocusTime as real / 100.0) * 100.0;
    if share <= 100.0 then share else 100.0
  }

  /** More focus time never shows a shorter bar. */
  lemma MilestoneMonotone(t: nat, u: nat)
    requires t <= u
    ensures Milestone(t) <= Milestone(u)
  {
  }

  // ---------------------------------------------------------------------------
  // The app component
  // ---------------------------------------------------------------------------

  class App {
    var lang: Language
    var stats: UserStats
    /** The garden, most recent plant first. */
    var plants: seq<Plant>
    var coachMsg: string
    var currentPlantTemplate: PlantTemplate

    ghost predicate Valid()
      reads this
    {
      && currentPlantTemplate in PlantTemplates
      && Consistent(stats, plants)
    }

    constructor ()
      ensures Valid()
      ensures lang == En && stats == InitialStats && plants == [] && coachMsg == ""
      ensures currentPlantTemplate == PlantTemplates[0]
    {
      lang := En;
      stats := InitialStats;
      plants := [];
      coachMsg := "";
      currentPlantTemplate := PlantTemplates[0];
    }

    /**
     * The effect run on mount and whenever the language changes: ask for a
     * coach message for a zero-minute session at the current total.
     */
    method FetchCoach(coachMessage: (nat, nat, Language) -> string)
      requires Valid()
      modifies this`coachMsg
      ensures Valid()
      ensures coachMsg == coachMessage(0, stats.totalFocusTime, lang)
    {
      coachMsg := coachMessage(0, stats.totalFocusTime, lang);
    }

    /**
     * A completed session of `minutes`, as one atomic step: lore for the
     * current template, the new plant in front of the garden, the statistics
     * updated, a coach message for the new total, and the template for the
     * next session drawn with `r`. `id` and `now` stand for the random id and
     * the clock.
     */
    method HandleFocusComplete(
      minutes: nat,
      generateLore: (string, Rarity, Language) -> string,
      coachMessage: (nat, nat, Language) -> string,
      id: string, now: int, r: real)
      requires Valid() && 0.0 <= r < 1.0
      modifies this
      ensures Valid() && lang == old(lang)
      ensures stats == CompleteStats(old(stats), minutes)
      ensures plants == AddToGarden(old(plants), NewPlant(old(currentPlantTemplate), id,
        generateLore(old(currentPlantTemplate).name, old(currentPlantTemplate).rarity, lang),
        minutes, now))
      ensures coachMsg == coachMessage(minutes, old(stats).totalFocusTime + minutes, lang)
      ensures currentPlantTemplate == PlantTemplates[NextTemplateIndex(r)]
    {
      var newTotalTime := stats.totalFocusTime + minutes;
      var lore := generateLore(currentPlantTemplate.name, currentPlantTemplate.rarity, lang);
      var newPlant := NewPlant(currentPlantTemplate, id, lore, minutes, now);
      CompletionKeepsConsistent(stats, plants, newPlant, minutes);
      plants := AddToGarden(plants, newPlant);
      stats := CompleteStats(stats, minutes);
      coachMsg := coachMessage(minutes, newTotalTime, lang);
      currentPlantTemplate := PlantTemplates[NextTemplateIndex(r)];
    }

    /**
     * The language button. Every language change also runs the coach-message
     * effect, so a caller follows each toggle with `FetchCoach`.
     */
    method ToggleLanguage()
      requires Valid()
      modifies this`lang
      ensures Valid()
      ensures lang == ToggleLang(old(lang))
    {
      lang := ToggleLang(lang);
    }
  }

  // ---------------------------------------------------------------------------
  // A whole default session
  // ---------------------------------------------------------------------------

  /**
   * A started 25-minute session: 1500 ticks end it with one call of onComplete
   * with 25, after which the statistics, from the initial ones, show 25 minutes,
   * a streak of 1, one plant and 100 sunlight.
   */
  lemma DefaultSessionScenario()
    ensures var run := TimerComponent.RunTicks(FocusDuration,
      TimerComponent.Toggle(TimerComponent.Initial(FocusDuration)), 1500);
      && run.completions == [25]
      && run.state == TimerComponent.TimerState(0, false)
      && CompleteStats(InitialStats, run.completions[0])
        == UserStats(totalFocusTime := 25, sunlight := 100, currentStreak := 1,
                     bestStreak := 1, plantsGrown := 1)
  {
    TimerComponent.FreshSessionCompletesOnce(FocusDuration, 1500);
  }
}
