/**
 * The application's data model: the choices the wizard collects
 * (`TripPreferences` and its four closed enumerations), the itinerary the
 * language model returns (`TripItinerary`, `DayPlan`, `Activity`) and the
 * three screens of the application (`ViewState`).
 *
 * Each enumeration member carries the German label that the source uses as
 * its string value; the labels are what the prompt and the screens show.
 */
module Types {
  import opened Wrappers
  import JsStrings

  /** What the traveller is after (a multiple choice in the wizard). */
  datatype TravelStyle = Relaxing | Adventure | Culture | Foodie | Party | Shopping {
    function Label(): string {
      match this
      case Relaxing => "Entspannung & Wellness"
      case Adventure => "Abenteuer & Natur"
      case Culture => "Kunst & Kultur"
      case Foodie => "Essen & Trinken"
      case Party => "Nachtleben & Events"
      case Shopping => "Shopping & Mode"
    }
  }

  /** How much may be spent. Every label reads "<name> (<detail>)". */
  datatype BudgetLevel = Budget | Moderate | Luxury {
    function Label(): string {
      match this
      case Budget => "Budget (Sparsam)"
      case Moderate => "Mittelklasse (Komfort)"
      case Luxury => "Luxus (Kein Limit)"
    }

    /** The part of the label before the parenthesis. */
    function Name(): string {
      match this
      case Budget => "Budget"
      case Moderate => "Mittelklasse"
      case Luxury => "Luxus"
    }

    /** The part of the label inside the parenthesis. */
    function Detail(): string {
      match this
      case Budget => "Sparsam"
      case Moderate => "Komfort"
      case Luxury => "Kein Limit"
    }
  }

  /** Who travels along. */
  datatype CompanionType = Solo | Couple | Family | Friends {
    function Label(): string {
      match this
      case Solo => "Alleine"
      case Couple => "Als Paar"
      case Family => "Mit Familie"
      case Friends => "Mit Freunden"
    }
  }

  /** The preferred kind of accommodation. */
  datatype HotelType = Hotel | Resort | Boutique | Airbnb | Hostel {
    function Label(): string {
      match this
      case Hotel => "Klassisches Hotel"
      case Resort => "All-Inclusive Resort"
      case Boutique => "Design / Boutique"
      case Airbnb => "Apartment / Ferienwohnung"
      case Hostel => "Hostel / Social"
    }
  }

  /** The members of each enumeration in declaration order (`Object.values`). */
  const AllTravelStyles: seq<TravelStyle> := [Relaxing, Adventure, Culture, Foodie, Party, Shopping]
  const AllBudgetLevels: seq<BudgetLevel> := [Budget, Moderate, Luxury]
  const AllCompanionTypes: seq<CompanionType> := [Solo, Couple, Family, Friends]
  const AllHotelTypes: seq<HotelType> := [Hotel, Resort, Boutique, Airbnb, Hostel]

  /** The profile the wizard builds and the generator reads. */
  datatype TripPreferences = TripPreferences(
    destination: string,
    duration: int,          // in days
    budget: BudgetLevel,
    style: seq<TravelStyle>,
    companions: CompanionType,
    hotelType: HotelType,
    transport: string)

  /** One entry of a day's programme; only the tip is optional. */
  datatype Activity = Activity(
    time: string,
    activity: string,
    description: string,
    location: string,
    tips: Option<string>)

  datatype DayPlan = DayPlan(day: int, theme: string, activities: seq<Activity>)

  /** The hotel the itinerary recommends: exactly a name, a description and a vibe line. */
  datatype RecommendedHotel = RecommendedHotel(name: string, description: string, vibe: string)

  datatype TripItinerary = TripItinerary(
    tripTitle: string,
    destination: string,
    summary: string,
    recommendedHotel: RecommendedHotel,
    days: seq<DayPlan>,
    estimatedCost: string,
    packingList: seq<string>)

  /** The screen the application shows. */
  datatype ViewState = Dashboard | WizardView | Itinerary

  const AllViewStates: seq<ViewState> := [Dashboard, WizardView, Itinerary]

  /** True when no element occurs twice. */
  predicate NoDuplicates<T(==)>(s: seq<T>) {
    forall i, j :: 0 <= i < j < |s| ==> s[i] != s[j]
  }

  // ---------------------------------------------------------------------------
  // Facts about the enumerations
  // ---------------------------------------------------------------------------

  /** There are six travel styles, listed once each, and no two share a label. */
  lemma TravelStylesEnumerated()
    ensures |AllTravelStyles| == 6 && NoDuplicates(AllTravelStyles)
    ensures forall s: TravelStyle :: s in AllTravelStyles
    ensures forall s: TravelStyle, t: TravelStyle :: s.Label() == t.Label() ==> s == t
  {
    forall s: TravelStyle ensures s in AllTravelStyles {
      match s
      case Relaxing => assert AllTravelStyles[0] == s;
      case Adventure => assert AllTravelStyles[1] == s;
      case Culture => assert AllTravelStyles[2] == s;
      case Foodie => assert AllTravelStyles[3] == s;
      case Party => assert AllTravelStyles[4] == s;
      case Shopping => assert AllTravelStyles[5] == s;
    }
  }

  /** There are three budget levels, listed once each, and no two share a label. */
  lemma BudgetLevelsEnumerated()
    ensures |AllBudgetLevels| == 3 && NoDuplicates(AllBudgetLevels)
    ensures forall b: BudgetLevel :: b in AllBudgetLevels
    ensures forall b: BudgetLevel, c: BudgetLevel :: b.Label() == c.Label() ==> b == c
  {
    forall b: BudgetLevel ensures b in AllBudgetLevels {
      match b
      case Budget => assert AllBudgetLevels[0] == b;
      case Moderate => assert AllBudgetLevels[1] == b;
      case Luxury => assert AllBudgetLevels[2] == b;
    }
  }

  /** Every budget label is its name, a space and its detail in parentheses. */
  lemma BudgetLabelShape(b: BudgetLevel)
    ensures b.Label() == b.Name() + " (" + b.Detail() + ")"
  {
    match b
    case Budget =>
    case Moderate =>
    case Luxury =>
  }

  /** The name holds no opening parenthesis and the detail neither a closing parenthesis nor a line break. */
  lemma BudgetPartsPlain(b: BudgetLevel)
    ensures '(' !in b.Name()
    ensures forall k :: 0 <= k < |b.Detail()| ==>
      b.Detail()[k] != ')' && !JsStrings.IsLineTerminator(b.Detail()[k])
  {
    match b
    case Budget =>
    case Moderate =>
    case Luxury =>
  }

  /** There are four companion types and five hotel types, each with its own label. */
  lemma CompanionAndHotelTypesEnumerated()
    ensures |AllCompanionTypes| == 4 && NoDuplicates(AllCompanionTypes)
    ensures forall c: CompanionType :: c in AllCompanionTypes
    ensures forall c: CompanionType, d: CompanionType :: c.Label() == d.Label() ==> c == d
    ensures |AllHotelTypes| == 5 && NoDuplicates(AllHotelTypes)
    ensures forall h: HotelType :: h in AllHotelTypes
    ensures forall h: HotelType, g: HotelType :: h.Label() == g.Label() ==> h == g
  {
    forall c: CompanionType ensures c in AllCompanionTypes {
      match c
      case Solo => assert AllCompanionTypes[0] == c;
      case Couple => assert AllCompanionTypes[1] == c;
      case Family => assert AllCompanionTypes[2] == c;
      case Friends => assert AllCompanionTypes[3] == c;
    }
    forall h: HotelType ensures h in AllHotelTypes {
      match h
      case Hotel => assert AllHotelTypes[0] == h;
      case Resort => assert AllHotelTypes[1] == h;
      case Boutique => assert AllHotelTypes[2] == h;
      case Airbnb => assert AllHotelTypes[3] == h;
      case Hostel => assert AllHotelTypes[4] == h;
    }
  }

  /** The application has exactly three screens. */
  lemma ViewStatesEnumerated()
    ensures |AllViewStates| == 3 && NoDuplicates(AllViewStates)
    ensures forall v: ViewState :: v in AllViewStates
  {
    forall v: ViewState ensures v in AllViewStates {
      match v
      case Dashboard => assert AllViewStates[0] == v;
      case WizardView => assert AllViewStates[1] == v;
      case Itinerary => assert AllViewStates[2] == v;
    }
  }
}
