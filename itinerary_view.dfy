/**
 * The itinerary page: the text it derives from a `TripItinerary` (the hotel's
 * vibe chips, the two-digit day labels, the day count, the optional tips, the
 * destination in the navigation bar once scrolled) and the order in which it
 * lists days, activities and packing items.
 */
module ItineraryView {
  import opened Wrappers
  import opened Types
  import opened JsStrings

  // ---------------------------------------------------------------------------
  // The vibe chips
  // ---------------------------------------------------------------------------

  /** `vibe.split(',').map(v => v.trim())`. */
  function VibeChips(vibe: string): seq<string> {
    var pieces := Split(vibe, ',');
    seq(|pieces|, k requires 0 <= k < |pieces| => Trim(pieces[k]))
  }

  /**
   * One chip per comma-separated piece of the vibe line, in order: the chips
   * are one more than the commas, chip `k` is piece `k` trimmed, and the
   * pieces joined with commas give the line back.
   */
  lemma VibeChipsShape(vibe: string)
    ensures |VibeChips(vibe)| == Count(vibe, ',') + 1
    ensures forall k :: 0 <= k < |VibeChips(vibe)| ==> VibeChips(vibe)[k] == Trim(Split(vibe, ',')[k])
    ensures Join(Split(vibe, ','), ",") == vibe
  {
    JoinSplit(vibe, ',');
  }

  /** No chip holds a comma, and none starts or ends with white space. */
  lemma VibeChipsClean(vibe: string)
    ensures forall k, i :: 0 <= k < |VibeChips(vibe)| && 0 <= i < |VibeChips(vibe)[k]| ==>
      VibeChips(vibe)[k][i] != ','
    ensures forall k :: 0 <= k < |VibeChips(vibe)| ==> Trim(VibeChips(vibe)[k]) == VibeChips(vibe)[k]
  {
    var pieces := Split(vibe, ',');
    forall k | 0 <= k < |pieces|
      ensures forall i :: 0 <= i < |Trim(pieces[k])| ==> Trim(pieces[k])[i] != ','
      ensures Trim(Trim(pieces[k])) == Trim(pieces[k])
    {
      TrimKeepsOut(pieces[k], ',');
      TrimIdempotent(pieces[k]);
    }
  }

  /** A vibe line shows a single chip exactly when it has no comma, and that chip is the whole line trimmed. */
  lemma SingleChip(vibe: string)
    ensures |VibeChips(vibe)| == 1 <==> ',' !in vibe
    ensures ',' !in vibe ==> VibeChips(vibe) == [Trim(vibe)]
  {
    VibeChipsShape(vibe);
    CountZero(vibe, ',');
    if ',' !in vibe {
      SplitNoSeparator(vibe, ',');
    }
  }

  /** Trimming only removes characters, so a character absent before is absent after. */
  lemma TrimKeepsOut(p: string, c: char)
    requires c !in p
    ensures forall i :: 0 <= i < |Trim(p)| ==> Trim(p)[i] != c
  {
    var t := TrimStart(p);
    var r := TrimEnd(t);
    forall i | 0 <= i < |r| ensures r[i] != c {
      assert r[i] == t[i];
      assert t[i] == p[|p| - |t| + i];
    }
  }

  /**
   * A vibe line written as trimmed, comma-free words separated by ", " (as in
   * "Urban, Hip, Views") shows exactly those words as its chips.
   */
  lemma VibeChipsOfWords(words: seq<string>)
    requires |words| >= 1
    requires forall k :: 0 <= k < |words| ==> ',' !in words[k] && Trim(words[k]) == words[k]
    ensures VibeChips(Join(words, ", ")) == words
  {
    SplitCommaSpace(words);
    SpacedTrimmed(words);
    ChipsOfPieces(Join(words, ", "), [words[0]] + Spaced(words[1..]), words);
  }

  lemma SpacedTrimmed(words: seq<string>)
    requires |words| >= 1
    requires forall k :: 0 <= k < |words| ==> Trim(words[k]) == words[k]
    ensures forall k :: 0 <= k < |words| ==> Trim(([words[0]] + Spaced(words[1..]))[k]) == words[k]
  {
    var pieces := [words[0]] + Spaced(words[1..]);
    forall k | 0 <= k < |words| ensures Trim(pieces[k]) == words[k] {
      if k > 0 {
        assert pieces[k] == [' '] + words[k];
        TrimAfterWhiteSpace(' ', words[k]);
      }
    }
  }

  lemma ChipsOfPieces(line: string, pieces: seq<string>, words: seq<string>)
    requires Split(line, ',') == pieces && |pieces| == |words|
    requires forall k :: 0 <= k < |pieces| ==> Trim(pieces[k]) == words[k]
    ensures VibeChips(line) == words
  {
  }

  /** Splitting a ", "-separated line of comma-free words on ',' gives the words, each after the first with its space. */
  lemma SplitCommaSpace(words: seq<string>)
    requires |words| >= 1
    requires forall k :: 0 <= k < |words| ==> ',' !in words[k]
    ensures Split(Join(words, ", "), ',') == [words[0]] + Spaced(words[1..])
  {
    var spaced := [words[0]] + Spaced(words[1..]);
    JoinCommaSpace(words[0], words[1..]);
    assert [words[0]] + words[1..] == words;
    SpacedNoComma(words);
    SplitJoin(spaced, ',');
  }

  lemma SpacedNoComma(words: seq<string>)
    requires |words| >= 1
    requires forall k :: 0 <= k < |words| ==> ',' !in words[k]
    ensures forall k :: 0 <= k < |words| ==> ',' !in ([words[0]] + Spaced(words[1..]))[k]
  {
    var spaced := [words[0]] + Spaced(words[1..]);
    forall k | 0 <= k < |words| ensures ',' !in spaced[k] {
      if k > 0 {
        assert spaced[k] == " " + words[k];
      }
    }
  }

  /** Each word with a space in front. */
  function Spaced(words: seq<string>): (r: seq<string>)
    ensures |r| == |words| && forall k :: 0 <= k < |words| ==> r[k] == " " + words[k]
  {
    if words == [] then [] else [" " + words[0]] + Spaced(words[1..])
  }

  lemma {:induction false} JoinCommaSpace(first: string, rest: seq<string>)
    ensures Join([first] + rest, ", ") == Join([first] + Spaced(rest), ",")
    decreases |rest|
  {
    if rest != [] {
      var tail := rest[1..];
      var spacedTail := Spaced(tail);
      assert [rest[0]] + tail == rest;
      JoinCommaSpace(rest[0], tail);
      var inner := Join([rest[0]] + spacedTail, ",");
      JoinCons(first, rest, ", ");
      JoinCons(first, Spaced(rest), ",");
      JoinSpaceFirst(rest[0], spacedTail);
      assert first + ", " + inner == first + "," + (" " + inner);
    }
  }

  lemma JoinCons(x: string, rest: seq<string>, sep: string)
    requires rest != []
    ensures Join([x] + rest, sep) == x + sep + Join(rest, sep)
  {
    assert ([x] + rest)[1..] == rest;
  }

  lemma JoinSpaceFirst(x: string, more: seq<string>)
    ensures Join([" " + x] + more, ",") == " " + Join([x] + more, ",")
  {
    if more != [] {
      assert ([" " + x] + more)[1..] == more;
      assert ([x] + more)[1..] == more;
    }
  }

  // ---------------------------------------------------------------------------
  // Day labels and the day count
  // ---------------------------------------------------------------------------

  /** `String(day.day).padStart(2, '0')`. */
  function DayLabel(day: int): string {
    PadStart(IntToString(day), 2, '0')
  }

  /**
   * The day label is at least two characters: a zero in front of a single
   * digit, the numeral unchanged otherwise (so also for negative numbers);
   * for a day that is not negative it is all digits and reads back as the day.
   */
  lemma DayLabelShape(day: int)
    ensures |DayLabel(day)| >= 2
    ensures 0 <= day < 10 ==> DayLabel(day) == "0" + IntToString(day)
    ensures (day >= 10 || day < 0) ==> DayLabel(day) == IntToString(day)
    ensures day >= 0 ==> (forall k :: 0 <= k < |DayLabel(day)| ==> IsDigit(DayLabel(day)[k]))
    ensures day >= 0 ==> DecimalValue(DayLabel(day)) == day
  {
    if day >= 0 {
      var n := NatToString(day);
      NatToStringValue(day);
      var zeros: nat := if |n| >= 2 then 0 else 2 - |n|;
      LeadingZerosValue(zeros, n);
      assert Repeat('0', 1) == "0";
      assert Repeat('0', 0) == "";
      assert DayLabel(day) == Repeat('0', zeros) + n;
    }
  }

  /** The header's day count: the number of days, then " DAYS". */
  function DayCountText(days: seq<DayPlan>): string {
    IntToString(|days|) + " DAYS"
  }

  /** The count in the header reads back as the number of day plans. */
  lemma DayCountReadsBack(days: seq<DayPlan>)
    ensures exists numeral ::
      && DayCountText(days) == numeral + " DAYS"
      && (forall k :: 0 <= k < |numeral| ==> IsDigit(numeral[k]))
      && DecimalValue(numeral) == |days|
  {
    NatToStringValue(|days|);
    assert DayCountText(days) == NatToString(|days|) + " DAYS";
  }

  // ---------------------------------------------------------------------------
  // Tips and the navigation bar
  // ---------------------------------------------------------------------------

  /** `{act.tips && …}`: the tip, when there is one and it is not empty. */
  function ShownTip(a: Activity): Option<string> {
    if a.tips.Some? && a.tips.value != "" then a.tips else None
  }

  /** A tip is shown exactly when it is present and non-empty, and then it is shown as given. */
  lemma ShownTipRule(a: Activity)
    ensures ShownTip(a).Some? <==> a.tips.Some? && |a.tips.value| > 0
    ensures ShownTip(a).Some? ==> ShownTip(a) == a.tips
    ensures a.tips == Some("") ==> ShownTip(a).None?
  {
  }

  /** The scroll handler's flag: the page counts as scrolled past 50 pixels. */
  function Scrolled(scrollY: real): bool {
    scrollY > 50.0
  }

  /** The destination shown in the navigation bar, only once the page is scrolled. */
  function NavTitle(itinerary: TripItinerary, scrolled: bool): Option<string> {
    if scrolled then Some(itinerary.destination) else None
  }

  /** The navigation bar shows the destination exactly when the page is scrolled further than 50. */
  lemma NavTitleRule(itinerary: TripItinerary, scrollY: real)
    ensures NavTitle(itinerary, Scrolled(scrollY)).Some? <==> scrollY > 50.0
    ensures NavTitle(itinerary, Scrolled(scrollY)).Some? ==>
      NavTitle(itinerary, Scrolled(scrollY)) == Some(itinerary.destination)
    ensures NavTitle(itinerary, Scrolled(50.0)).None?
  {
  }

  // ---------------------------------------------------------------------------
  // The page
  // ---------------------------------------------------------------------------

  datatype ActivityBlock = ActivityBlock(time: string, activity: string, description: string,
                                         location: string, tip: Option<string>)
  datatype DayBlock = DayBlock(dayLabel: string, theme: string, activities: seq<ActivityBlock>)

  datatype Page = Page(
    navTitle: Option<string>,
    title: string,
    summary: string,
    dayCount: string,
    cost: string,
    hotelName: string,
    hotelDescription: string,
    chips: seq<string>,
    days: seq<DayBlock>,
    essentials: seq<string>)

  function RenderActivity(a: Activity): ActivityBlock {
    ActivityBlock(a.time, a.activity, a.description, a.location, ShownTip(a))
  }

  function RenderActivities(acts: seq<Activity>): seq<ActivityBlock> {
    seq(|acts|, k requires 0 <= k < |acts| => RenderActivity(acts[k]))
  }

  function RenderDay(d: DayPlan): DayBlock {
    DayBlock(DayLabel(d.day), d.theme, RenderActivities(d.activities))
  }

  function RenderDays(days: seq<DayPlan>): seq<DayBlock> {
    seq(|days|, k requires 0 <= k < |days| => RenderDay(days[k]))
  }

  /** The whole page for an itinerary, given whether it is scrolled. */
  function Render(itinerary: TripItinerary, scrolled: bool): Page {
    Page(NavTitle(itinerary, scrolled),
         itinerary.tripTitle, itinerary.summary, DayCountText(itinerary.days), itinerary.estimatedCost,
         itinerary.recommendedHotel.name, itinerary.recommendedHotel.description,
         VibeChips(itinerary.recommendedHotel.vibe),
         RenderDays(itinerary.days), itinerary.packingList)
  }

  /**
   * Listing is order-preserving: the blocks of two runs of days one after
   * the other are the blocks of the first run followed by those of the second.
   */
  lemma DaysInOrder(a: seq<DayPlan>, b: seq<DayPlan>)
    ensures RenderDays(a + b) == RenderDays(a) + RenderDays(b)
  {
    var lhs := RenderDays(a + b);
    var ra, rb := RenderDays(a), RenderDays(b);
    assert |lhs| == |ra + rb|;
    forall k | 0 <= k < |lhs| ensures lhs[k] == (ra + rb)[k] {
      if k < |a| {
        assert lhs[k] == RenderDay(a[k]) == ra[k];
      } else {
        assert lhs[k] == RenderDay(b[k - |a|]) == rb[k - |a|];
      }
    }
  }

  /** The same for the activities of a day. */
  lemma ActivitiesInOrder(x: seq<Activity>, y: seq<Activity>)
    ensures RenderActivities(x + y) == RenderActivities(x) + RenderActivities(y)
  {
    var lhs := RenderActivities(x + y);
    var rhs := RenderActivities(x) + RenderActivities(y);
    forall k | 0 <= k < |lhs| ensures lhs[k] == rhs[k] {
      if k < |x| {
        assert (x + y)[k] == x[k];
      } else {
        assert (x + y)[k] == y[k - |x|];
      }
    }
  }

  /** An activity block shows the activity's time, name, description and location, and its tip by the tip rule. */
  predicate ShowsActivity(b: ActivityBlock, a: Activity) {
    b.time == a.time && b.activity == a.activity && b.description == a.description &&
    b.location == a.location && b.tip == ShownTip(a)
  }

  /**
   * The page shows one day block per day plan and, inside it, one activity
   * block per activity, each showing that activity, in the itinerary's
   * order; every packing item once, in order; the day numbers padded to two
   * digits, 1 to 9 as "01" to "09"; the hotel's vibe chips; and the
   * destination in the nav bar by the scroll rule.
   */
  lemma RenderPage(itinerary: TripItinerary, scrolled: bool)
    ensures var page := Render(itinerary, scrolled);
      && page.navTitle == NavTitle(itinerary, scrolled)
      && page.title == itinerary.tripTitle && page.summary == itinerary.summary
      && page.cost == itinerary.estimatedCost
      && page.hotelName == itinerary.recommendedHotel.name
      && page.hotelDescription == itinerary.recommendedHotel.description
      && page.chips == VibeChips(itinerary.recommendedHotel.vibe)
      && |page.days| == |itinerary.days|
      && (forall k :: 0 <= k < |page.days| ==>
            && |page.days[k].activities| == |itinerary.days[k].activities|
            && page.days[k].theme == itinerary.days[k].theme
            && page.days[k].dayLabel == DayLabel(itinerary.days[k].day)
            && (1 <= itinerary.days[k].day <= 9 ==> page.days[k].dayLabel == ['0', DigitChar(itinerary.days[k].day)]))
      && (forall k, j :: 0 <= k < |page.days| && 0 <= j < |itinerary.days[k].activities| ==>
            ShowsActivity(page.days[k].activities[j], itinerary.days[k].activities[j]))
      && page.essentials == itinerary.packingList
      && page.dayCount == DayCountText(itinerary.days)
  {
    forall k | 0 <= k < |itinerary.days| && 1 <= itinerary.days[k].day <= 9
      ensures DayLabel(itinerary.days[k].day) == ['0', DigitChar(itinerary.days[k].day)]
    {
      DayLabelShape(itinerary.days[k].day);
    }
  }
}
