/**
 * The itinerary generator: it renders the traveller's profile into a German
 * prompt, sends that prompt with a fixed model id, the JSON response type and
 * a response schema as one request to the language-model provider, and turns
 * the provider's answer into an itinerary or an error.
 *
 * The provider and `JSON.parse` are outside the model; they are parameters:
 * `provider` maps the request to the answer the SDK call produced (text, no
 * text, or a thrown error) and `parse` maps a text to what parsing it yields.
 */
module GeminiService {
  import opened Wrappers
  import opened Types
  import opened JsStrings

  /** A thrown JavaScript `Error`, identified by its message. */
  datatype Error = Error(message: string)

  const ModelId: string := "gemini-3-flash-preview"
  const ResponseMimeType: string := "application/json"
  const NoResponseMessage: string := "Keine Antwort von Gemini erhalten."

  // ---------------------------------------------------------------------------
  // The prompt
  // ---------------------------------------------------------------------------

  /** The labels of the chosen styles, in the order they were chosen. */
  function StyleLabels(styles: seq<TravelStyle>): (r: seq<string>)
    ensures |r| == |styles| && forall k :: 0 <= k < |r| ==> r[k] == styles[k].Label()
  {
    if styles == [] then [] else [styles[0].Label()] + StyleLabels(styles[1..])
  }

  /** The fixed lines of the template before the profile. */
  const PromptIntro: seq<string> := [
    "",
    "    Du bist Voyage Vault, ein preisgekrönter, hipper Reiseplaner.",
    "    Erstelle einen absolut maßgeschneiderten Reiseplan.",
    "",
    "    PROFIL:"]

  /** The fixed lines of the template after the profile. */
  const PromptTask: seq<string> := [
    "",
    "    AUFGABE:",
    "    Erstelle ein JSON. Sei kreativ, aber realistisch.",
    "    WICHTIG: Nenne ein REAL EXISTIERENDES Hotel (oder sehr realistisches Beispiel), das genau zum Budget und Vibe passt.",
    "    Nenne bei Aktivitäten REALE Restaurantnamen oder Sehenswürdigkeiten.",
    "    ",
    "    Sprache: Deutsch (Du-Form, freundlich, enthusiastisch).",
    "  "]

  /** The profile block: one labelled line per field. */
  function ProfileLines(prefs: TripPreferences): seq<string> {
    [ "    - Ziel: " + prefs.destination,
      "    - Dauer: " + IntToString(prefs.duration) + " Tage",
      "    - Budget: " + prefs.budget.Label(),
      "    - Vibe: " + Join(StyleLabels(prefs.style), ", "),
      "    - Begleitung: " + prefs.companions.Label(),
      "    - Unterkunftspräferenz: " + prefs.hotelType.Label(),
      "    - Transport vor Ort: " + prefs.transport ]
  }

  /** The lines of the prompt template, with the profile filled in. */
  function PromptLines(prefs: TripPreferences): seq<string> {
    PromptIntro + ProfileLines(prefs) + PromptTask
  }

  /** The prompt text: the template's lines separated by line breaks. */
  function Prompt(prefs: TripPreferences): string {
    Join(PromptLines(prefs), "\n")
  }

  // ---------------------------------------------------------------------------
  // The response schema
  // ---------------------------------------------------------------------------

  /** The provider's structured-output schema language, as far as the request uses it. */
  datatype Schema =
    | StringSchema(description: Option<string>)
    | IntegerSchema
    | ArraySchema(items: Schema, arrayDescription: Option<string>)
    | ObjectSchema(properties: seq<Property>)

  datatype Property = Property(name: string, schema: Schema)

  const ActivitySchema: Schema := ObjectSchema([
    Property("time", StringSchema(Some("Uhrzeit"))),
    Property("activity", StringSchema(None)),
    Property("description", StringSchema(None)),
    Property("location", StringSchema(None)),
    Property("tips", StringSchema(Some("Ein Insider-Tipp dazu")))])

  const DaySchema: Schema := ObjectSchema([
    Property("day", IntegerSchema),
    Property("theme", StringSchema(Some("Motto des Tages"))),
    Property("activities", ArraySchema(ActivitySchema, None))])

  const HotelSchema: Schema := ObjectSchema([
    Property("name", StringSchema(Some("Name des Hotels"))),
    Property("description", StringSchema(Some("Warum dieses Hotel? (Lage, Style)"))),
    Property("vibe", StringSchema(Some("3 Schlagworte, z.B. 'Modern, Zentral, Rooftop'")))])

  /** The schema the request asks the answer to follow. */
  const ResponseSchema: Schema := ObjectSchema([
    Property("tripTitle", StringSchema(Some("Kreativer Titel, z.B. 'Dolce Vita in Rom'"))),
    Property("destination", StringSchema(None)),
    Property("summary", StringSchema(Some("Inspirierendes Intro (max 30 Wörter)"))),
    Property("recommendedHotel", HotelSchema),
    Property("estimatedCost", StringSchema(Some("Gesamtkosten Schätzung"))),
    Property("packingList", ArraySchema(StringSchema(None), Some("7 coole Pack-Items"))),
    Property("days", ArraySchema(DaySchema, None))])

  /** The names an object schema declares, in declaration order. */
  function PropertyNames(props: seq<Property>): (r: seq<string>)
    ensures |r| == |props| && forall k :: 0 <= k < |r| ==> r[k] == props[k].name
  {
    if props == [] then [] else [props[0].name] + PropertyNames(props[1..])
  }

  /** The schema of the first property called `name`, if any. */
  function Lookup(props: seq<Property>, name: string): (r: Option<Schema>)
    ensures r.Some? <==> name in PropertyNames(props)
    ensures r.Some? ==> exists k :: 0 <= k < |props| && props[k] == Property(name, r.value)
  {
    if props == [] then None
    else if props[0].name == name then Some(props[0].schema)
    else
      assert PropertyNames(props) == [props[0].name] + PropertyNames(props[1..]);
      var r := Lookup(props[1..], name);
      assert r.Some? ==> exists k :: 0 <= k < |props| - 1 && props[1..][k] == Property(name, r.value);
      r
  }

  // ---------------------------------------------------------------------------
  // JSON values and what it means for one to follow the schema
  // ---------------------------------------------------------------------------

  datatype Json =
    | JString(str: string)
    | JInteger(number: int)
    | JArray(elements: seq<Json>)
    | JObject(members: seq<(string, Json)>)

  /**
   * `j` follows `schema`: strings where strings are asked for, integers where
   * integers are, arrays whose elements follow the item schema, and objects
   * whose every member is a declared property with a value that follows it.
   * As in the source's schema, no property is required.
   */
  predicate Conforms(j: Json, schema: Schema)
    decreases j
  {
    match schema
    case StringSchema(_) => j.JString?
    case IntegerSchema => j.JInteger?
    case ArraySchema(items, _) =>
      j.JArray? && forall k :: 0 <= k < |j.elements| ==> Conforms(j.elements[k], items)
    case ObjectSchema(props) =>
      j.JObject? && forall k :: 0 <= k < |j.members| ==>
        Lookup(props, j.members[k].0).Some? && Conforms(j.members[k].1, Lookup(props, j.members[k].0).value)
  }

  /** The keys of an object's members, in order. */
  function Keys(members: seq<(string, Json)>): (r: seq<string>)
    ensures |r| == |members| && forall k :: 0 <= k < |r| ==> r[k] == members[k].0
  {
    if members == [] then [] else [members[0].0] + Keys(members[1..])
  }

  /** No two properties share a name. */
  predicate DistinctNames(props: seq<Property>) {
    forall i, j :: 0 <= i < j < |props| ==> props[i].name != props[j].name
  }

  /** The JSON text of an activity, as `JSON.parse` would read it back; the tip only when present. */
  function ActivityJson(a: Activity): Json {
    JObject([("time", JString(a.time)), ("activity", JString(a.activity)),
             ("description", JString(a.description)), ("location", JString(a.location))] +
            (if a.tips.Some? then [("tips", JString(a.tips.value))] else []))
  }

  function DayJson(d: DayPlan): Json {
    JObject([("day", JInteger(d.day)), ("theme", JString(d.theme)),
             ("activities", JArray(seq(|d.activities|, k requires 0 <= k < |d.activities| => ActivityJson(d.activities[k]))))])
  }

  function HotelJson(h: RecommendedHotel): Json {
    JObject([("name", JString(h.name)), ("description", JString(h.description)), ("vibe", JString(h.vibe))])
  }

  /** The JSON form of an itinerary: the object the `as TripItinerary` cast takes it to be. */
  function ItineraryJson(it: TripItinerary): Json {
    JObject([("tripTitle", JString(it.tripTitle)),
             ("destination", JString(it.destination)),
             ("summary", JString(it.summary)),
             ("recommendedHotel", HotelJson(it.recommendedHotel)),
             ("estimatedCost", JString(it.estimatedCost)),
             ("packingList", JArray(seq(|it.packingList|, k requires 0 <= k < |it.packingList| => JString(it.packingList[k])))),
             ("days", JArray(seq(|it.days|, k requires 0 <= k < |it.days| => DayJson(it.days[k]))))])
  }

  // ---------------------------------------------------------------------------
  // The request and the answer
  // ---------------------------------------------------------------------------

  datatype GenerationConfig = GenerationConfig(responseMimeType: string, responseSchema: Schema)
  datatype GenerateContentRequest = GenerateContentRequest(model: string, contents: string, config: GenerationConfig)

  /** What the SDK call produced: it threw, or it returned a response whose text may be absent. */
  datatype ProviderReply = Threw(error: Error) | Answered(text: Option<string>)

  /** The one request `generateTrip` sends for a profile. */
  function BuildRequest(prefs: TripPreferences): GenerateContentRequest {
    GenerateContentRequest(ModelId, Prompt(prefs), GenerationConfig(ResponseMimeType, ResponseSchema))
  }

  /**
   * The `try` block after the call: a non-empty text is parsed, anything
   * else throws the no-answer error; the `catch` re-throws every error as it is.
   */
  function HandleReply(reply: ProviderReply, parse: string -> Result<TripItinerary, Error>): Result<TripItinerary, Error> {
    match reply
    case Threw(e) => Failure(e)
    case Answered(text) =>
      if text.Some? && text.value != "" then parse(text.value) else Failure(Error(NoResponseMessage))
  }

  /** `generateTrip(prefs)`: one request to the provider, then its answer classified. */
  function GenerateTrip(prefs: TripPreferences, provider: GenerateContentRequest -> ProviderReply,
                        parse: string -> Result<TripItinerary, Error>): Result<TripItinerary, Error> {
    HandleReply(provider(BuildRequest(prefs)), parse)
  }

  // ---------------------------------------------------------------------------
  // Properties
  // ---------------------------------------------------------------------------

  /**
   * The request: the fixed model id, the JSON response type, the response
   * schema, and the prompt for this profile as its only content.
   */
  lemma RequestIsFixed(prefs: TripPreferences)
    ensures BuildRequest(prefs).model == "gemini-3-flash-preview"
    ensures BuildRequest(prefs).config == GenerationConfig("application/json", ResponseSchema)
    ensures BuildRequest(prefs).contents == Prompt(prefs)
  {
  }

  /**
   * The outcome of `generateTrip`. It succeeds exactly when the provider
   * answered with a non-empty text that parses, and then the itinerary is
   * exactly what parsing gave, with no checks or changes. An absent or empty
   * text is the no-answer error; an error thrown by the provider or by the
   * parser comes out unchanged. There is no other outcome.
   */
  lemma GenerateTripOutcome(prefs: TripPreferences, provider: GenerateContentRequest -> ProviderReply,
                            parse: string -> Result<TripItinerary, Error>)
    ensures var reply := provider(BuildRequest(prefs));
      var r := GenerateTrip(prefs, provider, parse);
      && (r.Success? <==> reply.Answered? && reply.text.Some? && reply.text.value != "" &&
                          parse(reply.text.value).Success?)
      && (reply.Answered? && reply.text.Some? && reply.text.value != "" ==> r == parse(reply.text.value))
      && (reply.Answered? && (reply.text.None? || reply.text.value == "") ==>
            r == Failure(Error("Keine Antwort von Gemini erhalten.")))
      && (reply.Threw? ==> r == Failure(reply.error))
  {
  }

  /**
   * The prompt holds each profile field verbatim on a labelled line of its
   * own: the destination, the duration followed by " Tage", the budget label,
   * the style labels joined by ", " in the order chosen, the companion label,
   * the hotel-type label and the transport.
   */
  lemma PromptProfile(prefs: TripPreferences)
    ensures var text := Prompt(prefs);
      && OnOwnLine(text, "    PROFIL:")
      && OnOwnLine(text, "    - Ziel: " + prefs.destination)
      && OnOwnLine(text, "    - Dauer: " + IntToString(prefs.duration) + " Tage")
      && OnOwnLine(text, "    - Budget: " + prefs.budget.Label())
      && OnOwnLine(text, "    - Vibe: " + Join(StyleLabels(prefs.style), ", "))
      && OnOwnLine(text, "    - Begleitung: " + prefs.companions.Label())
      && OnOwnLine(text, "    - Unterkunftspräferenz: " + prefs.hotelType.Label())
      && OnOwnLine(text, "    - Transport vor Ort: " + prefs.transport)
  {
    var lines := PromptLines(prefs);
    assert |PromptIntro| == 5 && |PromptTask| == 8 && lines[4] == PromptIntro[4];
    JoinedLineOnOwnLine(lines, 4);
    var profile := ProfileLines(prefs);
    forall k | 0 <= k < 7 ensures OnOwnLine(Prompt(prefs), profile[k]) {
      assert lines[k + 5] == profile[k];
      JoinedLineOnOwnLine(lines, k + 5);
    }
    assert OnOwnLine(Prompt(prefs), profile[0]) && OnOwnLine(Prompt(prefs), profile[1]);
    assert OnOwnLine(Prompt(prefs), profile[2]) && OnOwnLine(Prompt(prefs), profile[3]);
    assert OnOwnLine(Prompt(prefs), profile[4]) && OnOwnLine(Prompt(prefs), profile[5]);
    assert OnOwnLine(Prompt(prefs), profile[6]);
  }

  /**
   * With no style chosen the Vibe line of the prompt is empty. `GenerateTrip`
   * has no precondition on the styles, so such a profile is sent as any other.
   */
  lemma EmptyStyleVibeLine(prefs: TripPreferences)
    requires prefs.style == []
    ensures OnOwnLine(Prompt(prefs), "    - Vibe: ")
  {
    PromptProfile(prefs);
    assert Join(StyleLabels(prefs.style), ", ") == "";
    assert "    - Vibe: " + "" == "    - Vibe: ";
  }

  /** The schema's seven top-level fields. */
  lemma ResponseFields()
    ensures PropertyNames(ResponseSchema.properties) ==
      ["tripTitle", "destination", "summary", "recommendedHotel", "estimatedCost", "packingList", "days"]
  {
  }

  /** The fields of a day, of an activity and of the hotel. */
  lemma NestedFields()
    ensures PropertyNames(DaySchema.properties) == ["day", "theme", "activities"]
    ensures PropertyNames(ActivitySchema.properties) == ["time", "activity", "description", "location", "tips"]
    ensures PropertyNames(HotelSchema.properties) == ["name", "description", "vibe"]
  {
  }

  /** With distinct names, looking up a property's name finds that property. */
  lemma {:induction false} LookupAt(props: seq<Property>, k: nat)
    requires k < |props| && DistinctNames(props)
    ensures Lookup(props, props[k].name) == Some(props[k].schema)
  {
    if k > 0 {
      LookupAt(props[1..], k - 1);
    }
  }

  /** An object whose members are, in order, values for the first properties of a schema follows it. */
  lemma ObjectConforms(members: seq<(string, Json)>, props: seq<Property>)
    requires |members| <= |props| && DistinctNames(props)
    requires forall k :: 0 <= k < |members| ==>
      members[k].0 == props[k].name && Conforms(members[k].1, props[k].schema)
    ensures Conforms(JObject(members), ObjectSchema(props))
  {
    forall k | 0 <= k < |members|
      ensures Lookup(props, members[k].0) == Some(props[k].schema)
    {
      LookupAt(props, k);
    }
  }

  /**
   * The schema and the data model describe the same fields: every itinerary
   * in JSON form follows the schema, and its keys are exactly the schema's
   * top-level fields, in the schema's order.
   */
  lemma ItineraryFollowsSchema(it: TripItinerary)
    ensures Conforms(ItineraryJson(it), ResponseSchema)
    ensures Keys(ItineraryJson(it).members) == PropertyNames(ResponseSchema.properties)
  {
    ResponseNamesDistinct();
    ItineraryMembersConform(it);
    ObjectConforms(ItineraryJson(it).members, ResponseSchema.properties);
  }

  lemma ResponseNamesDistinct()
    ensures DistinctNames(ResponseSchema.properties)
  {
    var props := ResponseSchema.properties;
    forall i, j | 0 <= i < j < |props| ensures props[i].name != props[j].name {
      if |props[i].name| == |props[j].name| {
        assert i == 1 && j == 5;
        assert props[i].name[0] != props[j].name[0];
      }
    }
  }

  /** Member `k` of an itinerary's JSON form is a value, named as property `k`, that follows it. */
  lemma ItineraryMembersConform(it: TripItinerary)
    ensures var m := ItineraryJson(it).members;
      && |m| == |ResponseSchema.properties|
      && forall k :: 0 <= k < |m| ==>
           m[k].0 == ResponseSchema.properties[k].name && Conforms(m[k].1, ResponseSchema.properties[k].schema)
  {
    var m := ItineraryJson(it).members;
    var props := ResponseSchema.properties;
    HotelFollowsSchema(it.recommendedHotel);
    DaysFollowSchema(it);
    forall k | 0 <= k < |m| ensures m[k].0 == props[k].name && Conforms(m[k].1, props[k].schema) {
      if k == 3 {
        assert props[3].schema == HotelSchema && m[3].1 == HotelJson(it.recommendedHotel);
      } else if k == 5 {
        assert props[5].schema == ArraySchema(StringSchema(None), Some("7 coole Pack-Items"));
        var items := m[5].1.elements;
        forall i | 0 <= i < |items| ensures Conforms(items[i], StringSchema(None)) {
          assert items[i] == JString(it.packingList[i]);
        }
      } else if k == 6 {
        assert props[6].schema == ArraySchema(DaySchema, None);
      } else {
        assert props[k].schema.StringSchema? && m[k].1.JString?;
      }
    }
  }

  lemma DaysFollowSchema(it: TripItinerary)
    ensures Conforms(ItineraryJson(it).members[6].1, ArraySchema(DaySchema, None))
  {
    var j := ItineraryJson(it).members[6].1;
    forall k | 0 <= k < |j.elements| ensures Conforms(j.elements[k], DaySchema) {
      assert j.elements[k] == DayJson(it.days[k]);
      DayFollowsSchema(it.days[k]);
    }
  }

  lemma HotelFollowsSchema(h: RecommendedHotel)
    ensures Conforms(HotelJson(h), HotelSchema)
  {
    ObjectConforms(HotelJson(h).members, HotelSchema.properties);
  }

  lemma DayFollowsSchema(d: DayPlan)
    ensures Conforms(DayJson(d), DaySchema)
  {
    var acts := DayJson(d).members[2].1;
    forall k | 0 <= k < |acts.elements| ensures Conforms(acts.elements[k], ActivitySchema) {
      ActivityFollowsSchema(d.activities[k]);
    }
    assert DaySchema.properties[2].schema == ArraySchema(ActivitySchema, None);
    ObjectConforms(DayJson(d).members, DaySchema.properties);
  }

  /** An activity in JSON form follows the activity schema. */
  lemma ActivityFollowsSchema(a: Activity)
    ensures Conforms(ActivityJson(a), ActivitySchema)
  {
    ActivityNamesDistinct();
    StringObjectConforms(ActivityJson(a).members, ActivitySchema.properties);
  }

  /** It carries all five of the schema's fields when it has a tip, and the first four when not. */
  lemma ActivityKeys(a: Activity)
    ensures Keys(ActivityJson(a).members) ==
      (if a.tips.Some? then PropertyNames(ActivitySchema.properties)
       else PropertyNames(ActivitySchema.properties)[..4])
  {
    NestedFields();
    var names := ["time", "activity", "description", "location", "tips"];
    if a.tips.Some? {
      assert Keys(ActivityJson(a).members) == names;
    } else {
      assert Keys(ActivityJson(a).members) == names[..4];
    }
  }

  lemma ActivityNamesDistinct()
    ensures DistinctNames(ActivitySchema.properties)
  {
    var props := ActivitySchema.properties;
    assert props[0].name == "time" && props[4].name == "tips";
    assert "time"[2] != "tips"[2];
  }

  /** An object of string members named, in order, after string properties of a schema follows it. */
  lemma StringObjectConforms(members: seq<(string, Json)>, props: seq<Property>)
    requires |members| <= |props| && DistinctNames(props)
    requires forall k :: 0 <= k < |props| ==> props[k].schema.StringSchema?
    requires forall k :: 0 <= k < |members| ==> members[k].0 == props[k].name && members[k].1.JString?
    ensures Conforms(JObject(members), ObjectSchema(props))
    ensures Keys(members) == PropertyNames(props)[..|members|]
  {
    forall k | 0 <= k < |members| ensures Conforms(members[k].1, props[k].schema) {
      assert props[k].schema.StringSchema?;
    }
    ObjectConforms(members, props);
  }
}
