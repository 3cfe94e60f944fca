/**
 * The application shell: which of the three screens is shown, the list of
 * saved trips (seeded with two sample trips) and the trip being viewed. The
 * state is the class `AppState`; its methods are the handlers the screens
 * call back.
 */
module App {
  import opened Wrappers
  import opened Types
  import GeminiService
  import TripWizard

  // ---------------------------------------------------------------------------
  // The two sample trips
  // ---------------------------------------------------------------------------

  /** Days numbered 1 to `count`, each with the same theme and the one activity. */
  function NumberedDays(count: nat, theme: string, activity: Activity): seq<DayPlan> {
    seq(count, k => DayPlan(k + 1, theme, [activity]))
  }

  const BaliTrip: TripItinerary := TripItinerary(
    "Entspannung pur auf Bali",
    "Bali, Indonesien",
    "Eine Woche voller Yoga, Strände und kultureller Tempelbesuche im Herzen von Ubud und Canggu.",
    RecommendedHotel(
      "Como Uma Ubud",
      "Ein luxuriöses Wellness-Resort mitten im Dschungel, perfekt für Yoga und Entspannung.",
      "Nature, Wellness, Quiet"),
    NumberedDays(7, "Relax & Discover",
      Activity("10:00", "Yoga Session", "Morgenflow mit Blick auf den Dschungel.", "Hotel Gym",
               Some("Früh aufstehen für den Sonnenaufgang!"))),
    "ca. 1200€",
    ["Sonnencreme", "Yoga-Matte", "Insektenschutz", "Leichte Kleidung"])

  const NewYorkTrip: TripItinerary := TripItinerary(
    "Städtetrip New York",
    "New York City, USA",
    "4 Tage Action im Big Apple. Times Square, Central Park und die besten Pizza-Spots.",
    RecommendedHotel(
      "Arlo NoMad",
      "Modernes Micro-Hotel mit atemberaubendem Blick auf das Empire State Building.",
      "Urban, Hip, Views"),
    NumberedDays(4, "City Vibes",
      Activity("09:00", "Central Park Walk", "Spaziergang durch die grüne Lunge der Stadt.", "Manhattan",
               Some("Hole dir einen Bagel bei Russ & Daughters."))),
    "ca. 2000€",
    ["Bequeme Schuhe", "Kamera", "Adapter", "Powerbank"])

  /** The trips the dashboard lists before anything is generated. */
  const MockTrips: seq<TripItinerary> := [BaliTrip, NewYorkTrip]

  /** Days of a plan numbered consecutively from 1, each with at least one activity with a tip. */
  predicate WellFormedDays(days: seq<DayPlan>) {
    forall k :: 0 <= k < |days| ==>
      days[k].day == k + 1 && |days[k].activities| >= 1 && days[k].activities[0].tips.Some?
  }

  /**
   * The sample trips are a seven-day and a four-day trip whose days are
   * numbered 1 to n, each day with one activity carrying a tip, and four
   * packing items each.
   */
  lemma MockTripsShape()
    ensures |MockTrips| == 2
    ensures |MockTrips[0].days| == 7 && |MockTrips[1].days| == 4
    ensures forall t :: t in MockTrips ==> WellFormedDays(t.days) && |t.packingList| == 4
    ensures forall t :: t in MockTrips ==> forall d :: d in t.days ==> |d.activities| == 1
  {
  }

  // ---------------------------------------------------------------------------
  // What the shell renders
  // ---------------------------------------------------------------------------

  datatype Screen =
    | DashboardScreen(trips: seq<TripItinerary>)
    | WizardScreen
    | ItineraryScreen(trip: TripItinerary)

  /** The screens rendered inside the layout, in the order the component lists them. */
  function Rendered(view: ViewState, currentTrip: Option<TripItinerary>, savedTrips: seq<TripItinerary>): seq<Screen> {
    (if view == Dashboard then [DashboardScreen(savedTrips)] else []) +
    (if view == WizardView then [WizardScreen] else []) +
    (if view == Itinerary && currentTrip.Some? then [ItineraryScreen(currentTrip.value)] else [])
  }

  /**
   * At most one screen is shown; the itinerary screen shows a trip exactly
   * when the view is the itinerary and that trip is the current one; the
   * itinerary view without a current trip shows nothing.
   */
  lemma RenderedScreens(view: ViewState, currentTrip: Option<TripItinerary>, savedTrips: seq<TripItinerary>)
    ensures |Rendered(view, currentTrip, savedTrips)| <= 1
    ensures forall t :: ItineraryScreen(t) in Rendered(view, currentTrip, savedTrips) <==>
      view == Itinerary && currentTrip == Some(t)
    ensures DashboardScreen(savedTrips) in Rendered(view, currentTrip, savedTrips) <==> view == Dashboard
    ensures WizardScreen in Rendered(view, currentTrip, savedTrips) <==> view == WizardView
    ensures view == Itinerary && currentTrip.None? ==> Rendered(view, currentTrip, savedTrips) == []
  {
  }

  // ---------------------------------------------------------------------------
  // The shell state
  // ---------------------------------------------------------------------------

  class AppState {
    var view: ViewState
    var savedTrips: seq<TripItinerary>
    var currentTrip: Option<TripItinerary>
    /** The trips generated so far, newest first. */
    ghost var generated: seq<TripItinerary>

    /**
     * The saved trips are the generated ones, newest first, followed by the
     * two samples; the itinerary view always has a trip to show.
     */
    ghost predicate Valid()
      reads this
    {
      savedTrips == generated + MockTrips && (view == Itinerary ==> currentTrip.Some?)
    }

    /** The initial state: the dashboard, the sample trips, nothing selected. */
    constructor ()
      ensures Valid()
      ensures view == Dashboard && savedTrips == MockTrips && currentTrip == None && generated == []
    {
      view := Dashboard;
      savedTrips := MockTrips;
      currentTrip := None;
      generated := [];
    }

    /** `handleNewTrip`: the wizard opens; the selection is kept. */
    method HandleNewTrip()
      requires Valid()
      modifies this`view
      ensures Valid() && view == WizardView
    {
      view := WizardView;
    }

    /** `handleTripGenerated`: the new trip is saved in front of the others and shown. */
    method HandleTripGenerated(trip: TripItinerary)
      requires Valid()
      modifies this`currentTrip, this`savedTrips, this`view, this`generated
      ensures Valid()
      ensures currentTrip == Some(trip) && view == Itinerary
      ensures savedTrips == [trip] + old(savedTrips) && generated == [trip] + old(generated)
    {
      currentTrip := Some(trip);
      savedTrips := [trip] + savedTrips;
      generated := [trip] + generated;
      view := Itinerary;
    }

    /** `handleViewTrip`: an existing trip is shown; the saved list is untouched. */
    method HandleViewTrip(trip: TripItinerary)
      requires Valid()
      modifies this`currentTrip, this`view
      ensures Valid() && currentTrip == Some(trip) && view == Itinerary
    {
      currentTrip := Some(trip);
      view := Itinerary;
    }

    /** `handleHome`: back to the dashboard with nothing selected. */
    method HandleHome()
      requires Valid()
      modifies this`view, this`currentTrip
      ensures Valid() && view == Dashboard && currentTrip == None
    {
      view := Dashboard;
      currentTrip := None;
    }

    /** The screen the shell currently shows: exactly one while the state is valid. */
    function Screens(): (r: seq<Screen>)
      reads this
      requires Valid()
      ensures |r| == 1
      ensures view == Itinerary ==> r == [ItineraryScreen(currentTrip.value)]
    {
      Rendered(view, currentTrip, savedTrips)
    }
  }

  /**
   * The wizard's "Reise jetzt planen" button, with the wizard's
   * `onTripGenerated` wired to the shell's `handleTripGenerated`. A
   * successful generation saves the trip in front of the list and shows it;
   * a failed one leaves the shell on the wizard with its list and selection
   * unchanged and the wizard idle with its error message. The wizard's step
   * and profile are never touched.
   */
  method GenerateInWizard(app: AppState, wizard: TripWizard.Wizard,
                          provider: GeminiService.GenerateContentRequest -> GeminiService.ProviderReply,
                          parse: string -> Result<TripItinerary, GeminiService.Error>)
    requires app.Valid() && wizard.Valid() && app.view == WizardView
    requires wizard.step == TripWizard.TotalSteps && !wizard.loading
    modifies app`view, app`savedTrips, app`currentTrip, app`generated, wizard`loading, wizard`error
    ensures app.Valid() && wizard.Valid()
    ensures wizard.step == old(wizard.step) && wizard.prefs == old(wizard.prefs)
    ensures old(wizard.prefs).destination != ""
    ensures var outcome := GeminiService.GenerateTrip(old(wizard.prefs), provider, parse);
      && (outcome.Success? ==>
            && app.view == Itinerary && app.currentTrip == Some(outcome.value)
            && app.savedTrips == [outcome.value] + old(app.savedTrips)
            && wizard.loading && wizard.error == None)
      && (outcome.Failure? ==>
            && app.view == WizardView && app.savedTrips == old(app.savedTrips)
            && app.currentTrip == old(app.currentTrip)
            && !wizard.loading && wizard.error == Some(TripWizard.GenerationErrorMessage))
  {
    var delivered := wizard.HandleGenerate(provider, parse);
    if delivered.Some? {
      app.HandleTripGenerated(delivered.value);
    }
  }
}
