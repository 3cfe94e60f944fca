/**
 * The five-step wizard that collects a `TripPreferences` profile and starts
 * the generation. Its component state (step, profile, loading flag, error
 * message) is the class `Wizard`, whose methods are the event handlers; the
 * values the handlers compute and what the component renders are functions.
 */
module TripWizard {
  import opened Wrappers
  import opened Types
  import opened JsStrings
  import GeminiService

  const TotalSteps: int := 5
  const GenerationErrorMessage: string := "Ups! Die KI braucht eine kurze Pause. Bitte versuche es erneut."

  /** The four local-transport buttons of the last step. */
  const TransportOptions: seq<string> := ["Mietwagen", "Öffis", "Flugzeug", "Taxi/Uber"]

  /** The quick-choice buttons under the duration slider. */
  const DurationPresets: seq<int> := [3, 5, 7, 10, 14, 21]

  /** The slider's range, in days. */
  const MinDuration: int := 1
  const MaxDuration: int := 30

  /** Every preset lies on the slider's scale, so every way of setting the duration stays in range. */
  lemma PresetsOnScale()
    ensures forall d :: d in DurationPresets ==> MinDuration <= d <= MaxDuration
    ensures InitialPreferences.duration in DurationPresets
    ensures InitialPreferences.transport in TransportOptions
  {
  }

  /** The profile a new wizard starts from. */
  const InitialPreferences: TripPreferences :=
    TripPreferences("", 5, Moderate, [], Couple, Hotel, "Mietwagen")

  // ---------------------------------------------------------------------------
  // Step navigation
  // ---------------------------------------------------------------------------

  /** The step after "Weiter": one further, but never past the last step. */
  function StepForward(s: int): (r: int)
    ensures s < TotalSteps ==> r == s + 1
    ensures s >= TotalSteps ==> r == TotalSteps
  {
    if s + 1 < TotalSteps then s + 1 else TotalSteps
  }

  /** The step after "Zurück": one back, but never before the first step. */
  function StepBack(s: int): (r: int)
    ensures s > 1 ==> r == s - 1
    ensures s <= 1 ==> r == 1
  {
    if s - 1 > 1 then s - 1 else 1
  }

  datatype Move = PressNext | PressBack

  /** The step reached from `s` by pressing the navigation buttons in the order given. */
  function Walk(s: int, moves: seq<Move>): int
    decreases moves
  {
    if moves == [] then s
    else Walk(if moves[0] == PressNext then StepForward(s) else StepBack(s), moves[1..])
  }

  /** Whatever the buttons pressed, the step stays between the first and the last. */
  lemma {:induction false} WalkStaysInRange(s: int, moves: seq<Move>)
    requires 1 <= s <= TotalSteps
    ensures 1 <= Walk(s, moves) <= TotalSteps
    decreases moves
  {
    if moves != [] {
      WalkStaysInRange(if moves[0] == PressNext then StepForward(s) else StepBack(s), moves[1..]);
    }
  }

  /** From the first step, `n` presses of "Weiter" reach step `n + 1`, or the last step. */
  lemma {:induction false} ForwardPresses(n: nat)
    ensures Walk(1, seq(n, _ => PressNext)) == if n + 1 < TotalSteps then n + 1 else TotalSteps
  {
    ForwardFrom(1, n);
  }

  lemma {:induction false} ForwardFrom(s: int, n: nat)
    requires 1 <= s <= TotalSteps
    ensures Walk(s, seq(n, _ => PressNext)) == if s + n < TotalSteps then s + n else TotalSteps
    decreases n
  {
    if n > 0 {
      var moves := seq(n, _ => PressNext);
      assert moves[1..] == seq(n - 1, _ => PressNext);
      ForwardFrom(StepForward(s), n - 1);
    }
  }

  // ---------------------------------------------------------------------------
  // Toggling a travel style
  // ---------------------------------------------------------------------------

  /** `styles.filter(x => x !== s)`. */
  function Without(styles: seq<TravelStyle>, s: TravelStyle): (r: seq<TravelStyle>)
    ensures s !in r
    ensures forall t :: t != s ==> (t in r <==> t in styles)
    ensures |r| <= |styles|
  {
    if styles == [] then []
    else if styles[0] == s then Without(styles[1..], s)
    else [styles[0]] + Without(styles[1..], s)
  }

  /** The new style list: `s` dropped if chosen, otherwise added at the end. */
  function ToggledStyles(styles: seq<TravelStyle>, s: TravelStyle): (r: seq<TravelStyle>)
    ensures s in r <==> s !in styles
    ensures forall t :: t != s ==> (t in r <==> t in styles)
    ensures s !in styles ==> r == styles + [s]
  {
    if s in styles then Without(styles, s) else styles + [s]
  }

  /** Filtering a list without duplicates removes exactly the one position of `s`. */
  lemma {:induction false} WithoutAt(styles: seq<TravelStyle>, i: nat)
    requires i < |styles| && NoDuplicates(styles)
    ensures Without(styles, styles[i]) == styles[..i] + styles[i + 1..]
  {
    var s := styles[i];
    if i == 0 {
      WithoutAbsent(styles[1..], s);
    } else {
      WithoutAt(styles[1..], i - 1);
      assert styles[1..][i - 1] == s;
      assert [styles[0]] + (styles[1..][..i - 1] + styles[1..][i..]) == styles[..i] + styles[i + 1..];
    }
  }

  /** Filtering out a style that is not there changes nothing. */
  lemma {:induction false} WithoutAbsent(styles: seq<TravelStyle>, s: TravelStyle)
    requires s !in styles
    ensures Without(styles, s) == styles
  {
    if styles != [] {
      WithoutAbsent(styles[1..], s);
      assert [styles[0]] + styles[1..] == styles;
    }
  }

  /** The filter distributes over concatenation. */
  lemma {:induction false} WithoutAppend(a: seq<TravelStyle>, b: seq<TravelStyle>, s: TravelStyle)
    ensures Without(a + b, s) == Without(a, s) + Without(b, s)
  {
    if a != [] {
      assert (a + b)[1..] == a[1..] + b;
      WithoutAppend(a[1..], b, s);
    } else {
      assert a + b == b;
    }
  }

  /** Toggling keeps the style list free of duplicates. */
  lemma ToggleKeepsNoDuplicates(styles: seq<TravelStyle>, s: TravelStyle)
    requires NoDuplicates(styles)
    ensures NoDuplicates(ToggledStyles(styles, s))
  {
    if s in styles {
      var i :| 0 <= i < |styles| && styles[i] == s;
      WithoutAt(styles, i);
      RemoveAtNoDuplicates(styles, i);
    }
  }

  /** Dropping one position of a list without duplicates leaves a list without duplicates. */
  lemma RemoveAtNoDuplicates(styles: seq<TravelStyle>, i: nat)
    requires i < |styles| && NoDuplicates(styles)
    ensures NoDuplicates(styles[..i] + styles[i + 1..])
  {
    var r := styles[..i] + styles[i + 1..];
    forall a, b | 0 <= a < b < |r| ensures r[a] != r[b] {
      RemoveAtIndex(styles, i, a);
      RemoveAtIndex(styles, i, b);
    }
  }

  lemma RemoveAtIndex(styles: seq<TravelStyle>, i: nat, a: nat)
    requires i < |styles| && a < |styles| - 1
    ensures (styles[..i] + styles[i + 1..])[a] == styles[if a < i then a else a + 1]
  {
  }

  /** Toggling a style that was not chosen twice restores the list exactly. */
  lemma ToggleTwiceRestores(styles: seq<TravelStyle>, s: TravelStyle)
    requires s !in styles
    ensures ToggledStyles(ToggledStyles(styles, s), s) == styles
  {
    WithoutAppend(styles, [s], s);
    WithoutAbsent(styles, s);
    assert Without([s], s) == [];
  }

  /**
   * Toggling a chosen style removes it from its place and keeps the others
   * in order; toggling it again puts it at the end.
   */
  lemma ToggleChosen(styles: seq<TravelStyle>, i: nat)
    requires i < |styles| && NoDuplicates(styles)
    ensures ToggledStyles(styles, styles[i]) == styles[..i] + styles[i + 1..]
    ensures ToggledStyles(ToggledStyles(styles, styles[i]), styles[i]) == styles[..i] + styles[i + 1..] + [styles[i]]
  {
    WithoutAt(styles, i);
  }

  // ---------------------------------------------------------------------------
  // What the wizard renders
  // ---------------------------------------------------------------------------

  datatype StepScreen = LocationStep | DurationStep | BudgetCompanionsStep | AccommodationStep | VibeTransportStep

  /** The step bodies rendered for `step`, in the order the component lists them. */
  function StepScreens(step: int): seq<StepScreen> {
    (if step == 1 then [LocationStep] else []) +
    (if step == 2 then [DurationStep] else []) +
    (if step == 3 then [BudgetCompanionsStep] else []) +
    (if step == 4 then [AccommodationStep] else []) +
    (if step == 5 then [VibeTransportStep] else [])
  }

  /** Every step from the first to the last shows exactly one body, its own; any other step shows none. */
  lemma OneScreenPerStep(step: int)
    ensures |StepScreens(step)| == (if 1 <= step <= TotalSteps then 1 else 0)
    ensures step == 1 ==> StepScreens(step) == [LocationStep]
    ensures step == 2 ==> StepScreens(step) == [DurationStep]
    ensures step == 3 ==> StepScreens(step) == [BudgetCompanionsStep]
    ensures step == 4 ==> StepScreens(step) == [AccommodationStep]
    ensures step == 5 ==> StepScreens(step) == [VibeTransportStep]
  {
  }

  datatype BackButton = Back | Cancel
  datatype ForwardButton = Next(disabled: bool) | Generate

  /** "Zurück" after the first step, "Abbrechen" on it. */
  function BackButtonAt(step: int): BackButton {
    if step > 1 then Back else Cancel
  }

  /** "Weiter" before the last step, disabled on the first while no destination is typed; "Reise jetzt planen" on the last. */
  function ForwardButtonAt(step: int, prefs: TripPreferences): ForwardButton {
    if step < TotalSteps then Next(step == 1 && prefs.destination == "") else Generate
  }

  /**
   * The forward action is blocked exactly on the first step with an empty
   * destination, and the last step offers generation instead of moving on.
   */
  lemma ForwardGuard(step: int, prefs: TripPreferences)
    requires 1 <= step <= TotalSteps
    ensures ForwardButtonAt(step, prefs) == Next(true) <==> step == 1 && prefs.destination == ""
    ensures ForwardButtonAt(step, prefs) == Generate <==> step == TotalSteps
    ensures BackButtonAt(step) == Cancel <==> step == 1
  {
  }

  /** The text under the spinner: the destination, or "die Welt" while it is empty. */
  function LoadingText(prefs: TripPreferences): string {
    "Analysiere " + (if prefs.destination != "" then prefs.destination else "die Welt") +
    " nach den besten Hotels & Spots..."
  }

  datatype Screen =
    | LoadingScreen(text: string)
    | StepsScreen(progress: string, body: seq<StepScreen>, errorBanner: Option<string>,
                  back: BackButton, forward: ForwardButton)

  /** What the wizard shows: only the loading screen while generating, otherwise the current step. */
  function Render(step: int, prefs: TripPreferences, loading: bool, error: Option<string>): Screen {
    if loading then LoadingScreen(LoadingText(prefs))
    else StepsScreen("Step " + IntToString(step) + " von " + IntToString(TotalSteps),
                     StepScreens(step),
                     if error.Some? && error.value != "" then error else None,
                     BackButtonAt(step), ForwardButtonAt(step, prefs))
  }

  /**
   * While a generation runs nothing but the loading screen is shown, so no
   * button can be pressed; otherwise the current step's body is shown once,
   * with the error message after a failed generation.
   */
  lemma RenderShape(step: int, prefs: TripPreferences, loading: bool, error: Option<string>)
    requires 1 <= step <= TotalSteps
    ensures loading <==> Render(step, prefs, loading, error).LoadingScreen?
    ensures !loading ==> |Render(step, prefs, loading, error).body| == 1
    ensures !loading && error == Some(GenerationErrorMessage) ==>
      Render(step, prefs, loading, error).errorBanner == Some(GenerationErrorMessage)
    ensures !loading && error.None? ==> Render(step, prefs, loading, error).errorBanner.None?
  {
    OneScreenPerStep(step);
  }

  // ---------------------------------------------------------------------------
  // The budget chip
  // ---------------------------------------------------------------------------

  /** `label.split('(')[0]`: what comes before the first opening parenthesis. */
  function ChipTitle(budgetLabel: string): (r: string)
    ensures '(' !in r && r <= budgetLabel
    ensures |r| < |budgetLabel| ==> budgetLabel[|r|] == '('
  {
    SplitHead(budgetLabel, '(');
    Split(budgetLabel, '(')[0]
  }

  /** `label.match(/\((.*?)\)/)?.[1]`: the text inside the first parentheses. */
  function ChipCaption(budgetLabel: string): Option<string> {
    ParenGroup(budgetLabel)
  }

  /** Each budget chip shows the level's name (with the space before the parenthesis) over its detail. */
  lemma BudgetChipText(b: BudgetLevel)
    ensures ChipTitle(b.Label()) == b.Name() + " "
    ensures ChipCaption(b.Label()) == Some(b.Detail())
  {
    BudgetLabelShape(b);
    BudgetPartsPlain(b);
    ChipTitleOf(b.Name(), b.Detail());
    ChipCaptionOf(b.Name(), b.Detail());
  }

  /** The title of any "<name> (<detail>)" label whose name holds no opening parenthesis. */
  lemma ChipTitleOf(name: string, detail: string)
    requires '(' !in name
    ensures ChipTitle(name + " (" + detail + ")") == name + " "
  {
    assert name + " (" + detail + ")" == (name + " ") + ['('] + (detail + ")");
    SplitAfterPiece(name + " ", '(', detail + ")");
  }

  /** The caption of any "<name> (<detail>)" label whose parts hold no parenthesis of their own kind. */
  lemma ChipCaptionOf(name: string, detail: string)
    requires '(' !in name
    requires forall k :: 0 <= k < |detail| ==> detail[k] != ')' && !IsLineTerminator(detail[k])
    ensures ChipCaption(name + " (" + detail + ")") == Some(detail)
  {
    assert name + " (" + detail + ")" == (name + " ") + "(" + detail + ")" + "";
    ParenGroupAfter(name + " ", detail, "");
  }

  // ---------------------------------------------------------------------------
  // The component state
  // ---------------------------------------------------------------------------

  class Wizard {
    var step: int
    var prefs: TripPreferences
    var loading: bool
    var error: Option<string>

    /**
     * The step is one of the five, a destination is typed once the first
     * step is left (the disabled "Weiter" guards it), the styles have no
     * duplicates, the duration is on the slider's scale and the transport one
     * of the buttons.
     */
    ghost predicate Valid()
      reads this
    {
      && 1 <= step <= TotalSteps
      && (step > 1 ==> prefs.destination != "")
      && NoDuplicates(prefs.style)
      && MinDuration <= prefs.duration <= MaxDuration
      && prefs.transport in TransportOptions
    }

    /** The initial state: first step, default profile, idle, no error. */
    constructor ()
      ensures Valid()
      ensures step == 1 && prefs == InitialPreferences && !loading && error == None
    {
      step := 1;
      prefs := InitialPreferences;
      loading := false;
      error := None;
    }

    /** `nextStep`, the enabled "Weiter" button, which steps 1 to 4 show. */
    method NextStep()
      requires Valid() && !loading && ForwardButtonAt(step, prefs) == Next(false)
      modifies this`step
      ensures Valid() && step == StepForward(old(step))
    {
      step := StepForward(step);
    }

    /** `prevStep`, the "Zurück" button, which replaces "Abbrechen" after step 1. */
    method PrevStep()
      requires Valid() && !loading && step > 1
      modifies this`step
      ensures Valid() && step == StepBack(old(step))
    {
      step := StepBack(step);
    }

    /** `toggleStyle(s)`, a style chip of step 5: only the style list changes. */
    method ToggleStyle(s: TravelStyle)
      requires Valid() && !loading && step == 5
      modifies this`prefs
      ensures Valid()
      ensures prefs == old(prefs).(style := ToggledStyles(old(prefs.style), s))
    {
      ToggleKeepsNoDuplicates(prefs.style, s);
      prefs := prefs.(style := ToggledStyles(prefs.style, s));
    }

    /** The destination field's `onChange`; the field is on step 1. */
    method SetDestination(destination: string)
      requires Valid() && !loading && step == 1
      modifies this`prefs
      ensures Valid() && prefs == old(prefs).(destination := destination)
    {
      prefs := prefs.(destination := destination);
    }

    /** The duration slider and the preset buttons of step 2. */
    method SetDuration(duration: int)
      requires Valid() && !loading && step == 2 && MinDuration <= duration <= MaxDuration
      modifies this`prefs
      ensures Valid() && prefs == old(prefs).(duration := duration)
    {
      prefs := prefs.(duration := duration);
    }

    /** A budget chip of step 3. */
    method SetBudget(budget: BudgetLevel)
      requires Valid() && !loading && step == 3
      modifies this`prefs
      ensures Valid() && prefs == old(prefs).(budget := budget)
    {
      prefs := prefs.(budget := budget);
    }

    /** A companion button of step 3. */
    method SetCompanions(companions: CompanionType)
      requires Valid() && !loading && step == 3
      modifies this`prefs
      ensures Valid() && prefs == old(prefs).(companions := companions)
    {
      prefs := prefs.(companions := companions);
    }

    /** An accommodation card of step 4. */
    method SetHotelType(hotelType: HotelType)
      requires Valid() && !loading && step == 4
      modifies this`prefs
      ensures Valid() && prefs == old(prefs).(hotelType := hotelType)
    {
      prefs := prefs.(hotelType := hotelType);
    }

    /** One of the transport buttons of step 5. */
    method SetTransport(transport: string)
      requires Valid() && !loading && step == 5 && transport in TransportOptions
      modifies this`prefs
      ensures Valid() && prefs == old(prefs).(transport := transport)
    {
      prefs := prefs.(transport := transport);
    }

    /**
     * The part of `handleGenerate` before the `await`, reached by the button
     * of step 5 while idle: busy, and any old error cleared.
     */
    method StartGenerate()
      requires Valid() && step == TotalSteps && !loading
      modifies this`loading, this`error
      ensures Valid() && loading && error == None
    {
      loading := true;
      error := None;
    }

    /**
     * The part after the `await`. A result is handed to `onTripGenerated`
     * (returned here as `delivered`) and the wizard stays busy; an error
     * shows the fixed message and ends the busy state.
     */
    method FinishGenerate(outcome: Result<TripItinerary, GeminiService.Error>) returns (delivered: Option<TripItinerary>)
      requires Valid()
      modifies this`loading, this`error
      ensures Valid()
      ensures outcome.Success? ==> delivered == Some(outcome.value) && loading == old(loading) && error == old(error)
      ensures outcome.Failure? ==> delivered == None && !loading && error == Some(GenerationErrorMessage)
    {
      if outcome.Success? {
        delivered := Some(outcome.value);
      } else {
        delivered := None;
        error := Some(GenerationErrorMessage);
        loading := false;
      }
    }

    /**
     * `handleGenerate`: one generation for the current profile. On success
     * the itinerary is delivered once and the wizard is left busy with no
     * error; on any failure nothing is delivered, the wizard is idle again
     * and shows the fixed message. Step and profile do not change, and the
     * profile sent always has a destination.
     */
    method HandleGenerate(provider: GeminiService.GenerateContentRequest -> GeminiService.ProviderReply,
                          parse: string -> Result<TripItinerary, GeminiService.Error>)
      returns (delivered: Option<TripItinerary>)
      requires Valid() && step == TotalSteps && !loading
      modifies this`loading, this`error
      ensures Valid() && prefs.destination != ""
      ensures var outcome := GeminiService.GenerateTrip(prefs, provider, parse);
        && (outcome.Success? ==> delivered == Some(outcome.value) && loading && error == None)
        && (outcome.Failure? ==> delivered == None && !loading && error == Some(GenerationErrorMessage))
    {
      StartGenerate();
      var outcome := GeminiService.GenerateTrip(prefs, provider, parse);
      delivered := FinishGenerate(outcome);
    }
  }
}
