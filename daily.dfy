/**
 * The daily panel of the dashboard (cmd/wsrepeater/static/daily.js): the
 * high/low merge of the day's history with the current reading, and the
 * forecast cards built from the entries of the city forecast feed.
 *
 * Numbers read back from the page are `Num` values: `None` stands for the
 * NaN that parseFloat gives for text that is not a number.
 */
module Daily {

  import opened Wrappers
  import Text

  type Num = Option<real>

  /** Math.max of two numbers: NaN when either is NaN. */
  function JsMax(a: Num, b: Num): (r: Num)
    ensures r.Some? <==> a.Some? && b.Some?
    ensures r.Some? ==> r.value >= a.value && r.value >= b.value
    ensures r.Some? ==> r.value == a.value || r.value == b.value
  {
    if a.None? || b.None? then None
    else if a.value >= b.value then a else b
  }

  /** Math.min of two numbers: NaN when either is NaN. */
  function JsMin(a: Num, b: Num): (r: Num)
    ensures r.Some? <==> a.Some? && b.Some?
    ensures r.Some? ==> r.value <= a.value && r.value <= b.value
    ensures r.Some? ==> r.value == a.value || r.value == b.value
  {
    if a.None? || b.None? then None
    else if a.value <= b.value then a else b
  }

  /**
   * The values the panel shows, each the merge of the converted history value
   * with the value currently displayed by the main panel.
   */
  datatype DailyPanel = DailyPanel(tempHigh: Num, tempLow: Num, windSpeedMax: Num,
                                   windGustMax: Num, pressureMax: Num, pressureMin: Num, uvHigh: Num)

  /** History values, already converted to the panel's units. */
  datatype History = History(tempHigh: real, tempLow: real, windspeedHigh: real, windgustHigh: real,
                             pressureMax: real, pressureMin: real, uvHigh: real)

  /** The page's current readings. */
  datatype Current = Current(temp: Num, windSpeed: Num, windGust: Num, pressure: Num, uv: Num)

  /** `r` is Math.max(a, b): NaN exactly when `b` is, otherwise the larger of the two. */
  predicate IsMaxOf(r: Num, a: real, b: Num) {
    (r.Some? <==> b.Some?) && (r.Some? ==> r.value >= a && r.value >= b.value && (r.value == a || r.value == b.value))
  }

  /** `r` is Math.min(a, b): NaN exactly when `b` is, otherwise the smaller of the two. */
  predicate IsMinOf(r: Num, a: real, b: Num) {
    (r.Some? <==> b.Some?) && (r.Some? ==> r.value <= a && r.value <= b.value && (r.value == a || r.value == b.value))
  }

  /**
   * updateDailyData: each panel value merges the day's history value with the
   * currently displayed reading, by Math.max for highs and Math.min for lows.
   */
  function UpdateDailyData(h: History, c: Current): (p: DailyPanel)
    ensures IsMaxOf(p.tempHigh, h.tempHigh, c.temp) && IsMinOf(p.tempLow, h.tempLow, c.temp)
    ensures IsMaxOf(p.windSpeedMax, h.windspeedHigh, c.windSpeed) && IsMaxOf(p.windGustMax, h.windgustHigh, c.windGust)
    ensures IsMaxOf(p.pressureMax, h.pressureMax, c.pressure) && IsMinOf(p.pressureMin, h.pressureMin, c.pressure)
    ensures IsMaxOf(p.uvHigh, h.uvHigh, c.uv)
  {
    DailyPanel(JsMax(Some(h.tempHigh), c.temp), JsMin(Some(h.tempLow), c.temp),
               JsMax(Some(h.windspeedHigh), c.windSpeed), JsMax(Some(h.windgustHigh), c.windGust),
               JsMax(Some(h.pressureMax), c.pressure), JsMin(Some(h.pressureMin), c.pressure),
               JsMax(Some(h.uvHigh), c.uv))
  }

  /** The shown high is never below the current reading or the history, and the low never above. */
  lemma DailyExtremesBracketCurrent(h: History, c: Current)
    requires c.temp.Some?
    ensures UpdateDailyData(h, c).tempHigh.Some? && UpdateDailyData(h, c).tempLow.Some?
    ensures UpdateDailyData(h, c).tempLow.value <= c.temp.value <= UpdateDailyData(h, c).tempHigh.value
    ensures UpdateDailyData(h, c).tempHigh.value >= h.tempHigh
    ensures UpdateDailyData(h, c).tempLow.value <= h.tempLow
  {
  }

  /** A current reading that is not a number makes the merged values not numbers. */
  lemma UnreadableCurrentGivesNaN(h: History, c: Current)
    requires c.temp.None? && c.pressure.None?
    ensures UpdateDailyData(h, c).tempHigh.None? && UpdateDailyData(h, c).tempLow.None?
    ensures UpdateDailyData(h, c).pressureMax.None? && UpdateDailyData(h, c).pressureMin.None?
  {
  }

  // ---------------------------------------------------------------------------
  // The title pattern /(\w+)\s?(night)?:/
  // ---------------------------------------------------------------------------

  /** The characters of JavaScript's \w (the pattern has no unicode flag). */
  predicate IsWordChar(c: char) {
    'a' <= c <= 'z' || 'A' <= c <= 'Z' || '0' <= c <= '9' || c == '_'
  }

  /** The characters of JavaScript's \s: white space and line terminators. */
  predicate IsSpace(c: char) {
    var n := c as int;
    (9 <= n <= 13) || n == 32 || n == 0xA0 || n == 0x1680 || (0x2000 <= n <= 0x200A)
    || n == 0x2028 || n == 0x2029 || n == 0x202F || n == 0x205F || n == 0x3000 || n == 0xFEFF
  }

  /** `(night)?:` accepts the text starting at index k. */
  predicate NightColonAt(s: string, k: int) {
    Text.OccursAt(s, "night:", k) || Text.OccursAt(s, ":", k)
  }

  /** `\s?(night)?:` accepts the text starting at index k. */
  predicate TailAt(s: string, k: int) {
    (0 <= k < |s| && IsSpace(s[k]) && NightColonAt(s, k + 1)) || NightColonAt(s, k)
  }

  /** The pattern matches at index i with its first group s[i..k]. */
  predicate GroupAt(s: string, i: int, k: int) {
    0 <= i < k <= |s| && (forall m :: i <= m < k ==> IsWordChar(s[m])) && TailAt(s, k)
  }

  /** The end of the run of word characters starting at i. */
  function WordEnd(s: string, i: nat): (j: nat)
    requires i <= |s|
    ensures i <= j <= |s|
    ensures forall m :: i <= m < j ==> IsWordChar(s[m])
    ensures j < |s| ==> !IsWordChar(s[j])
    decreases |s| - i
  {
    if i < |s| && IsWordChar(s[i]) then WordEnd(s, i + 1) else i
  }

  /** The greedy \w+ backing off from k towards i until the rest of the pattern accepts. */
  function BackOff(s: string, i: nat, k: nat): (r: Option<nat>)
    requires i <= k <= |s|
    ensures r.Some? ==> i < r.value <= k && TailAt(s, r.value)
    ensures r.Some? ==> forall m :: r.value < m <= k ==> !TailAt(s, m)
    ensures r.None? ==> forall m :: i < m <= k ==> !TailAt(s, m)
    decreases k
  {
    if k <= i then None
    else if TailAt(s, k) then Some(k)
    else BackOff(s, i, k - 1)
  }

  /** The matches that start at i are exactly the ends inside the word run that the tail accepts. */
  lemma GroupAtWordEnd(s: string, i: nat, k: int)
    requires i <= |s|
    ensures GroupAt(s, i, k) <==> i < k <= WordEnd(s, i) && TailAt(s, k)
  {
    var j := WordEnd(s, i);
  }

  /** The leftmost match at or after index i, with the greedy first group. */
  function MatchFrom(s: string, i: nat): (r: Option<(nat, nat)>)
    requires i <= |s|
    ensures r.Some? ==> i <= r.value.0 < r.value.1 <= |s|
    decreases |s| - i
  {
    match BackOff(s, i, WordEnd(s, i))
    case Some(k) => Some((i, k))
    case None => if i == |s| then None else MatchFrom(s, i + 1)
  }

  /** At one start, BackOff from the end of the word run finds the longest group the tail accepts, or there is none. */
  lemma MatchHere(s: string, i: nat)
    requires i <= |s|
    ensures var f := BackOff(s, i, WordEnd(s, i));
            f.Some? ==> GroupAt(s, i, f.value) && forall k :: f.value < k ==> !GroupAt(s, i, k)
    ensures BackOff(s, i, WordEnd(s, i)).None? ==> forall k :: !GroupAt(s, i, k)
  {
    var j := WordEnd(s, i);
    forall k ensures GroupAt(s, i, k) <==> i < k <= j && TailAt(s, k) {
      GroupAtWordEnd(s, i, k);
    }
  }

  /** MatchFrom finds the leftmost start, and at that start the longest first group the tail accepts. */
  lemma {:induction false} MatchFromIsLeftmostLongest(s: string, i: nat)
    requires i <= |s|
    ensures var r := MatchFrom(s, i);
            r.Some? ==> i <= r.value.0 && GroupAt(s, r.value.0, r.value.1)
    ensures var r := MatchFrom(s, i);
            r.Some? ==> forall k :: r.value.1 < k ==> !GroupAt(s, r.value.0, k)
    ensures var r := MatchFrom(s, i);
            r.Some? ==> forall a, k :: i <= a < r.value.0 ==> !GroupAt(s, a, k)
    ensures MatchFrom(s, i).None? ==> forall a, k :: i <= a ==> !GroupAt(s, a, k)
    decreases |s| - i
  {
    MatchHere(s, i);
    if BackOff(s, i, WordEnd(s, i)).None? && i < |s| {
      MatchFromIsLeftmostLongest(s, i + 1);
    }
  }

  /** What `title.match(/(\w+)\s?(night)?:/)[1]` gives, or "" when there is no match. */
  function TitleDay(title: string): string {
    match MatchFrom(title, 0)
    case Some((a, k)) => title[a..k]
    case None => ""
  }

  /** The day name is the first group of the leftmost match, with \w+ taken as long as the rest allows. */
  lemma TitleDayIsLeftmostLongest(title: string)
    ensures TitleDay(title) == "" <==> forall a, k :: !GroupAt(title, a, k)
    ensures TitleDay(title) != "" ==>
              exists a, k :: GroupAt(title, a, k) && TitleDay(title) == title[a..k]
                             && (forall a', k' :: a' < a ==> !GroupAt(title, a', k'))
                             && (forall k' :: k < k' ==> !GroupAt(title, a, k'))
  {
    MatchFromIsLeftmostLongest(title, 0);
    var r := MatchFrom(title, 0);
    if r.Some? {
      var (a, k) := r.value;
      assert GroupAt(title, a, k) && TitleDay(title) == title[a..k];
    }
  }

  /** A title "<day>: ..." or "<day> night: ..." gives the day's name. */
  lemma {:induction false} TitleDayOfForecast(day: string, night: bool, text: string)
    requires day != [] && forall m :: 0 <= m < |day| ==> IsWordChar(day[m])
    ensures TitleDay(day + (if night then " night: " else ": ") + text) == day
  {
    var sep := if night then " night: " else ": ";
    var t := day + sep + text;
    forall m | 0 <= m < |day| ensures t[m] == day[m] && IsWordChar(t[m]) { }
    assert !IsWordChar(t[|day|]);
    if night {
      assert IsSpace(t[|day|]) && Text.OccursAt(t, "night:", |day| + 1) by {
        assert t[|day| + 1..|day| + 7] == "night:";
      }
    } else {
      assert Text.OccursAt(t, ":", |day|) by {
        assert t[|day|..|day| + 1] == ":";
      }
    }
    assert GroupAt(t, 0, |day|);
    assert WordEnd(t, 0) == |day| by {
      WordEndOfRun(t, 0, |day|);
    }
    MatchFromIsLeftmostLongest(t, 0);
    var r := MatchFrom(t, 0);
    assert r.Some? && r.value.0 == 0;
    forall k | |day| < k ensures !GroupAt(t, 0, k) {
      GroupAtWordEnd(t, 0, k);
    }
    assert r.value.1 == |day|;
    assert t[0..|day|] == day;
  }

  lemma {:induction false} WordEndOfRun(s: string, i: nat, j: nat)
    requires i <= j < |s|
    requires forall m :: i <= m < j ==> IsWordChar(s[m])
    requires !IsWordChar(s[j])
    ensures WordEnd(s, i) == j
    decreases j - i
  {
    if i < j {
      WordEndOfRun(s, i + 1, j);
    }
  }

  // ---------------------------------------------------------------------------
  // Forecast cards
  // ---------------------------------------------------------------------------

  const ForecastCategory: string := "Weather Forecasts"
  const MaxCards: nat := 4

  /** A feed entry: the term of its category and the text of its title. */
  datatype Entry = Entry(category: string, title: string)

  /** One forecast card: the day's name and its day and night parts. */
  datatype Card = Card(header: string, day: string, night: string)

  /** A card is written out when one of its parts is not empty. */
  predicate Shown(c: Card) {
    c.day != "" || c.night != ""
  }

  predicate IsNight(title: string) {
    Text.Contains(Text.Lower(title), "night")
  }

  /** The titles of the forecast entries, in feed order. */
  function ForecastTitles(entries: seq<Entry>): (titles: seq<string>)
    ensures |titles| <= |entries|
  {
    if entries == [] then []
    else
      var last := entries[|entries| - 1];
      ForecastTitles(entries[..|entries| - 1]) + (if last.category == ForecastCategory then [last.title] else [])
  }

  /** A run of consecutive forecast titles with the same day name. */
  datatype Run = Run(date: string, titles: seq<string>)

  /** The forecast titles split into maximal runs of equal day name. */
  function Runs(titles: seq<string>): (runs: seq<Run>)
    ensures titles == [] <==> runs == []
  {
    if titles == [] then []
    else
      var t := titles[|titles| - 1];
      var runs := Runs(titles[..|titles| - 1]);
      if runs != [] && runs[|runs| - 1].date == TitleDay(t) then
        runs[..|runs| - 1] + [Run(TitleDay(t), runs[|runs| - 1].titles + [t])]
      else
        runs + [Run(TitleDay(t), [t])]
  }

  /** The rewritten last day title of a run, or "" when it has none. */
  function DayPart(date: string, titles: seq<string>): string {
    if titles == [] then ""
    else if IsNight(titles[|titles| - 1]) then DayPart(date, titles[..|titles| - 1])
    else Text.ReplaceFirst(titles[|titles| - 1], date + ": ", "")
  }

  /** The rewritten last night title of a run, or "" when it has none. */
  function NightPart(date: string, titles: seq<string>): string {
    if titles == [] then ""
    else if !IsNight(titles[|titles| - 1]) then NightPart(date, titles[..|titles| - 1])
    else Text.ReplaceFirst(titles[|titles| - 1], date + " night: ", "<i>Night:</i> ")
  }

  function CardOf(r: Run): Card {
    Card(r.date, DayPart(r.date, r.titles), NightPart(r.date, r.titles))
  }

  /** The cards of the runs that are written out. */
  function ShownCards(runs: seq<Run>): (cards: seq<Card>)
    ensures |cards| <= |runs|
    ensures forall c :: c in cards ==> Shown(c)
  {
    if runs == [] then []
    else
      var c := CardOf(runs[|runs| - 1]);
      ShownCards(runs[..|runs| - 1]) + (if Shown(c) then [c] else [])
  }

  function Take<T>(s: seq<T>, n: nat): (r: seq<T>)
    ensures |r| <= n && |r| <= |s|
    ensures r == s[..|r|]
    ensures |s| <= n ==> r == s
    ensures |s| > n ==> |r| == n
  {
    if |s| <= n then s else s[..n]
  }

  /**
   * The cards the forecast table holds: one per run of same-day forecast
   * entries that has a non-empty part, the first four of them.
   */
  function ForecastCards(entries: seq<Entry>): (cards: seq<Card>)
    ensures |cards| <= MaxCards
  {
    Take(ShownCards(Runs(ForecastTitles(entries))), MaxCards)
  }

  /** The runs before the last one. */
  function Closed(runs: seq<Run>): seq<Run> {
    if runs == [] then [] else runs[..|runs| - 1]
  }

  /** The last run, still open to more titles; an empty one before the first title. */
  function Open(runs: seq<Run>): Run {
    if runs == [] then Run("", []) else runs[|runs| - 1]
  }

  /** The card a run adds to the table: its own when it is shown, none otherwise. */
  function CardsOf(r: Run): seq<Card> {
    if Shown(CardOf(r)) then [CardOf(r)] else []
  }

  lemma ShownCardsSnoc(runs: seq<Run>, r: Run)
    ensures ShownCards(runs + [r]) == ShownCards(runs) + CardsOf(r)
  {
    assert (runs + [r])[..|runs|] == runs;
  }

  lemma TakeSnoc<T>(s: seq<T>, extra: seq<T>, n: nat)
    requires |s| < n
    ensures Take(s + extra, n) == s + Take(extra, n - |s|)
  {
  }

  lemma TakeFull<T>(s: seq<T>, extra: seq<T>, n: nat)
    requires |s| >= n
    ensures Take(s + extra, n) == Take(s, n)
  {
    assert (s + extra)[..n] == s[..n];
  }

  /** A title whose day name differs from the open run's closes that run and opens its own. */
  lemma RunsNewDay(titles: seq<string>, t: string)
    requires titles == [] || Open(Runs(titles)).date != TitleDay(t)
    ensures ShownCards(Closed(Runs(titles + [t]))) == ShownCards(Closed(Runs(titles))) + CardsOf(Open(Runs(titles)))
    ensures Open(Runs(titles + [t])) == Run(TitleDay(t), [t])
  {
    assert (titles + [t])[..|titles|] == titles;
    var runs := Runs(titles);
    ShownCardsSnoc(Closed(runs), Open(runs));
    if runs != [] {
      assert Closed(runs) + [Open(runs)] == runs;
    }
  }

  /** A title with the open run's day name joins that run. */
  lemma RunsSameDay(titles: seq<string>, t: string)
    requires Open(Runs(titles)).date == TitleDay(t)
    ensures Closed(Runs(titles + [t])) == Closed(Runs(titles))
    ensures Open(Runs(titles + [t])) == Run(TitleDay(t), Open(Runs(titles)).titles + [t])
  {
    assert (titles + [t])[..|titles|] == titles;
  }

  /** The parts of a run that grew by one title: that title's part is replaced, the other kept. */
  lemma PartsSnoc(date: string, titles: seq<string>, t: string)
    ensures DayPart(date, titles + [t]) == if IsNight(t) then DayPart(date, titles) else Text.ReplaceFirst(t, date + ": ", "")
    ensures NightPart(date, titles + [t]) ==
              if IsNight(t) then Text.ReplaceFirst(t, date + " night: ", "<i>Night:</i> ") else NightPart(date, titles)
  {
    assert (titles + [t])[..|titles|] == titles;
  }

  /** The forecast titles of one more entry. */
  lemma ForecastTitlesSnoc(seen: seq<Entry>, e: Entry)
    ensures ForecastTitles(seen + [e]) == ForecastTitles(seen) + (if e.category == ForecastCategory then [e.title] else [])
  {
    assert (seen + [e])[..|seen|] == seen;
  }

  /**
   * The state of updateForecastData after the entries `seen`: the cards
   * written so far are those of the closed runs (at most four), and while
   * there is room for more, the current date and parts are the open run's.
   */
  ghost predicate Tracks(seen: seq<Entry>, cards: seq<Card>, date: string, day: string, night: string) {
    var runs := Runs(ForecastTitles(seen));
    cards == Take(ShownCards(Closed(runs)), MaxCards)
    && (|ShownCards(Closed(runs))| < MaxCards ==>
          date == Open(runs).date && day == CardOf(Open(runs)).day && night == CardOf(Open(runs)).night)
  }

  /** An entry of another category changes nothing. */
  lemma TracksOtherCategory(seen: seq<Entry>, e: Entry, cards: seq<Card>, date: string, day: string, night: string)
    requires Tracks(seen, cards, date, day, night)
    requires e.category != ForecastCategory
    ensures Tracks(seen + [e], cards, date, day, night)
  {
    ForecastTitlesSnoc(seen, e);
    assert ForecastTitles(seen) + [] == ForecastTitles(seen);
  }

  /** An entry of another category, or any entry once four cards are out, changes nothing. */
  lemma TracksSkip(seen: seq<Entry>, e: Entry, cards: seq<Card>, date: string, day: string, night: string)
    requires Tracks(seen, cards, date, day, night)
    requires |cards| >= MaxCards || e.category != ForecastCategory
    ensures Tracks(seen + [e], cards, date, day, night)
  {
    if e.category == ForecastCategory {
      TracksFull(seen, e, cards, date, day, night);
    } else {
      TracksOtherCategory(seen, e, cards, date, day, night);
    }
  }

  /** Once four cards are out, a forecast entry changes nothing that matters. */
  lemma TracksFull(seen: seq<Entry>, e: Entry, cards: seq<Card>, date: string, day: string, night: string)
    requires Tracks(seen, cards, date, day, night)
    requires |cards| >= MaxCards && e.category == ForecastCategory
    ensures Tracks(seen + [e], cards, date, day, night)
  {
    ForecastTitlesSnoc(seen, e);
    var titles := ForecastTitles(seen);
    var closed := ShownCards(Closed(Runs(titles)));
    assert |closed| >= MaxCards;
    if titles == [] || Open(Runs(titles)).date != TitleDay(e.title) {
      RunsNewDay(titles, e.title);
      TakeFull(closed, CardsOf(Open(Runs(titles))), MaxCards);
      assert ShownCards(Closed(Runs(titles + [e.title]))) == closed + CardsOf(Open(Runs(titles)));
    } else {
      RunsSameDay(titles, e.title);
    }
  }

  /** A forecast entry whose day name differs from the current date closes the open run. */
  lemma TracksNewDay(seen: seq<Entry>, e: Entry, cards: seq<Card>, date: string, day: string, night: string,
                     cards': seq<Card>, day': string, night': string)
    requires Tracks(seen, cards, date, day, night)
    requires |cards| < MaxCards && e.category == ForecastCategory && TitleDay(e.title) != date
    requires cards' == cards + (if day != "" || night != "" then [Card(date, day, night)] else [])
    requires day' == if IsNight(e.title) then "" else Text.ReplaceFirst(e.title, TitleDay(e.title) + ": ", "")
    requires night' == if IsNight(e.title) then Text.ReplaceFirst(e.title, TitleDay(e.title) + " night: ", "<i>Night:</i> ") else ""
    ensures Tracks(seen + [e], cards', TitleDay(e.title), day', night')
  {
    ForecastTitlesSnoc(seen, e);
    var titles := ForecastTitles(seen);
    var closed := ShownCards(Closed(Runs(titles)));
    RunsNewDay(titles, e.title);
    TakeSnoc(closed, CardsOf(Open(Runs(titles))), MaxCards);
    PartsSnoc(TitleDay(e.title), [], e.title);
    assert [] + [e.title] == [e.title];
  }

  /** A forecast entry with the current day name joins the open run and overwrites its part. */
  lemma TracksSameDay(seen: seq<Entry>, e: Entry, cards: seq<Card>, date: string, day: string, night: string,
                      day': string, night': string)
    requires Tracks(seen, cards, date, day, night)
    requires |cards| < MaxCards && e.category == ForecastCategory && TitleDay(e.title) == date
    requires day' == if IsNight(e.title) then day else Text.ReplaceFirst(e.title, date + ": ", "")
    requires night' == if IsNight(e.title) then Text.ReplaceFirst(e.title, date + " night: ", "<i>Night:</i> ") else night
    ensures Tracks(seen + [e], cards, date, day', night')
  {
    ForecastTitlesSnoc(seen, e);
    var titles := ForecastTitles(seen);
    RunsSameDay(titles, e.title);
    PartsSnoc(date, Open(Runs(titles)).titles, e.title);
  }

  /** After the last entry, the final card is added when it has a part and there is room. */
  lemma TracksEnd(entries: seq<Entry>, cards: seq<Card>, date: string, day: string, night: string)
    requires Tracks(entries, cards, date, day, night)
    ensures (day != "" || night != "") && |cards| < MaxCards ==> cards + [Card(date, day, night)] == ForecastCards(entries)
    ensures !((day != "" || night != "") && |cards| < MaxCards) ==> cards == ForecastCards(entries)
  {
    var runs := Runs(ForecastTitles(entries));
    var open := Open(runs);
    ShownCardsSnoc(Closed(runs), open);
    if runs != [] {
      assert Closed(runs) + [open] == runs;
    }
    if |ShownCards(Closed(runs))| < MaxCards {
      TakeSnoc(ShownCards(Closed(runs)), CardsOf(open), MaxCards);
    } else {
      TakeFull(ShownCards(Closed(runs)), CardsOf(open), MaxCards);
    }
  }

  /** The loop state of updateForecastData: the cards written, the current date and the two parts. */
  datatype Table = Table(cards: seq<Card>, date: string, day: string, night: string)

  /** What the forEach callback does to the loop state for one entry. */
  function Visit(t: Table, e: Entry): Table {
    if |t.cards| >= MaxCards || e.category != ForecastCategory then t
    else
      var newDate := TitleDay(e.title);
      var t' := if newDate == t.date then t
                else Table(t.cards + (if t.day != "" || t.night != "" then [Card(t.date, t.day, t.night)] else []), newDate, "", "");
      if IsNight(e.title) then t'.(night := Text.ReplaceFirst(e.title, t'.date + " night: ", "<i>Night:</i> "))
      else t'.(day := Text.ReplaceFirst(e.title, t'.date + ": ", ""))
  }

  /** The loop state after the callback has seen the entries `seen`. */
  ghost function Scan(seen: seq<Entry>): Table {
    if seen == [] then Table([], "", "", "")
    else Visit(Scan(seen[..|seen| - 1]), seen[|seen| - 1])
  }

  /** One more entry moves the loop state by one callback. */
  lemma ScanStep(entries: seq<Entry>, i: nat)
    requires i < |entries|
    ensures Scan(entries[..i + 1]) == Visit(Scan(entries[..i]), entries[i])
  {
    assert entries[..i + 1][..i] == entries[..i];
  }

  /** The loop state always agrees with the runs of the entries seen so far. */
  lemma {:induction false} ScanTracks(seen: seq<Entry>)
    ensures Tracks(seen, Scan(seen).cards, Scan(seen).date, Scan(seen).day, Scan(seen).night)
    decreases |seen|
  {
    if seen != [] {
      var prev := seen[..|seen| - 1];
      var e := seen[|seen| - 1];
      assert seen == prev + [e];
      ScanTracks(prev);
      var t := Scan(prev);
      if |t.cards| >= MaxCards || e.category != ForecastCategory {
        TracksSkip(prev, e, t.cards, t.date, t.day, t.night);
      } else if TitleDay(e.title) != t.date {
        var t' := Scan(seen);
        TracksNewDay(prev, e, t.cards, t.date, t.day, t.night, t'.cards, t'.day, t'.night);
      } else {
        var t' := Scan(seen);
        TracksSameDay(prev, e, t.cards, t.date, t.day, t.night, t'.day, t'.night);
      }
    }
  }

  /** The final state of the loop, with the final card added when there is one and room for it, gives the table's cards. */
  lemma ScanCards(entries: seq<Entry>)
    ensures var t := Scan(entries);
            (t.day != "" || t.night != "") && |t.cards| < MaxCards ==> t.cards + [Card(t.date, t.day, t.night)] == ForecastCards(entries)
    ensures var t := Scan(entries);
            !((t.day != "" || t.night != "") && |t.cards| < MaxCards) ==> t.cards == ForecastCards(entries)
  {
    ScanTracks(entries);
    var t := Scan(entries);
    TracksEnd(entries, t.cards, t.date, t.day, t.night);
  }

  /**
   * updateForecastData's loop over the feed entries, followed by the final
   * card: the cards of the forecast table, in order.
   */
  method UpdateForecastData(entries: seq<Entry>) returns (cards: seq<Card>)
    ensures cards == ForecastCards(entries)
  {
    cards := [];
    var dayPart := "";
    var nightPart := "";
    var cardCounter := 0;
    var currentDate := "";
    for i := 0 to |entries|
      invariant cardCounter == |cards|
      invariant Table(cards, currentDate, dayPart, nightPart) == Scan(entries[..i])
    {
      ScanStep(entries, i);
      ghost var before := Table(cards, currentDate, dayPart, nightPart);
      var entry := entries[i];
      if cardCounter < MaxCards && entry.category == ForecastCategory {
        var title := entry.title;
        var newDate := TitleDay(title);
        if newDate != currentDate {
          if dayPart != "" || nightPart != "" {
            cards := cards + [Card(currentDate, dayPart, nightPart)];
            cardCounter := cardCounter + 1;
          }
          dayPart := "";
          nightPart := "";
          currentDate := newDate;
        }
        if IsNight(title) {
          nightPart := Text.ReplaceFirst(title, currentDate + " night: ", "<i>Night:</i> ");
        } else {
          dayPart := Text.ReplaceFirst(title, currentDate + ": ", "");
        }
      }
      assert Table(cards, currentDate, dayPart, nightPart) == Visit(before, entry);
    }
    assert entries[..|entries|] == entries;
    ScanCards(entries);
    if (dayPart != "" || nightPart != "") && cardCounter < MaxCards {
      cards := cards + [Card(currentDate, dayPart, nightPart)];
    }
  }

  // ---------------------------------------------------------------------------
  // Properties of the forecast cards
  // ---------------------------------------------------------------------------

  lemma {:induction false} ForecastTitlesConcat(a: seq<Entry>, b: seq<Entry>)
    ensures ForecastTitles(a + b) == ForecastTitles(a) + ForecastTitles(b)
    decreases |b|
  {
    if b == [] {
      assert a + b == a;
    } else {
      var b' := b[..|b| - 1];
      var e := b[|b| - 1];
      assert a + b == (a + b') + [e];
      assert b == b' + [e];
      ForecastTitlesConcat(a, b');
      ForecastTitlesSnoc(a + b', e);
      ForecastTitlesSnoc(b', e);
    }
  }

  /** Entries of any other category, wherever they stand, do not change the cards. */
  lemma OtherCategoryIgnored(before: seq<Entry>, e: Entry, after: seq<Entry>)
    requires e.category != ForecastCategory
    ensures ForecastCards(before + [e] + after) == ForecastCards(before + after)
  {
    ForecastTitlesConcat(before + [e], after);
    ForecastTitlesConcat(before, [e]);
    ForecastTitlesConcat(before, after);
    ForecastTitlesSnoc([], e);
    assert [] + [e] == [e];
    assert ForecastTitles([e]) == [];
    assert ForecastTitles(before + [e] + after) == ForecastTitles(before) + ForecastTitles(after);
  }

  /** The titles of runs, one run after another. */
  function Joined(runs: seq<Run>): seq<string> {
    if runs == [] then [] else Joined(runs[..|runs| - 1]) + runs[|runs| - 1].titles
  }

  /** Every title of a run carries the run's day name, and a run is never empty. */
  predicate Uniform(r: Run) {
    r.titles != [] && forall k :: 0 <= k < |r.titles| ==> TitleDay(r.titles[k]) == r.date
  }

  /** The runs of one more title, spelled out. */
  lemma RunsSnoc(titles: seq<string>, t: string)
    ensures titles != [] && Open(Runs(titles)).date == TitleDay(t) ==>
              Runs(titles + [t]) == Closed(Runs(titles)) + [Run(TitleDay(t), Open(Runs(titles)).titles + [t])]
    ensures !(titles != [] && Open(Runs(titles)).date == TitleDay(t)) ==>
              Runs(titles + [t]) == Runs(titles) + [Run(TitleDay(t), [t])]
  {
    assert (titles + [t])[..|titles|] == titles;
  }

  lemma JoinedSnoc(runs: seq<Run>, r: Run)
    ensures Joined(runs + [r]) == Joined(runs) + r.titles
  {
    assert (runs + [r])[..|runs|] == runs;
  }

  /** Joined back, the runs give the titles in order. */
  lemma {:induction false} RunsJoined(titles: seq<string>)
    ensures Joined(Runs(titles)) == titles
    decreases |titles|
  {
    if titles != [] {
      var init := titles[..|titles| - 1];
      var t := titles[|titles| - 1];
      assert titles == init + [t];
      RunsJoined(init);
      RunsSnoc(init, t);
      var runs := Runs(init);
      if init != [] && Open(runs).date == TitleDay(t) {
        assert Closed(runs) + [Open(runs)] == runs;
        JoinedSnoc(Closed(runs), Open(runs));
        JoinedSnoc(Closed(runs), Run(TitleDay(t), Open(runs).titles + [t]));
      } else {
        JoinedSnoc(runs, Run(TitleDay(t), [t]));
      }
    }
  }

  lemma UniformGrows(r: Run, t: string)
    requires Uniform(r) && TitleDay(t) == r.date
    ensures Uniform(Run(r.date, r.titles + [t]))
  {
  }

  lemma UniformSnoc(runs: seq<Run>, r: Run)
    requires forall j :: 0 <= j < |runs| ==> Uniform(runs[j])
    requires Uniform(r)
    ensures forall j :: 0 <= j < |runs + [r]| ==> Uniform((runs + [r])[j])
  {
  }

  /** One more title keeps every run uniform. */
  lemma RunsUniformSnoc(init: seq<string>, t: string)
    requires forall j :: 0 <= j < |Runs(init)| ==> Uniform(Runs(init)[j])
    ensures forall j :: 0 <= j < |Runs(init + [t])| ==> Uniform(Runs(init + [t])[j])
  {
    RunsSnoc(init, t);
    var runs := Runs(init);
    if init != [] && Open(runs).date == TitleDay(t) {
      UniformGrows(runs[|runs| - 1], t);
      UniformSnoc(Closed(runs), Run(TitleDay(t), Open(runs).titles + [t]));
    } else {
      UniformSnoc(runs, Run(TitleDay(t), [t]));
    }
  }

  /** Every run is non-empty and all its titles carry its day name. */
  lemma {:induction false} RunsUniform(titles: seq<string>)
    ensures forall j :: 0 <= j < |Runs(titles)| ==> Uniform(Runs(titles)[j])
    decreases |titles|
  {
    if titles != [] {
      var init := titles[..|titles| - 1];
      var t := titles[|titles| - 1];
      assert titles == init + [t];
      RunsUniform(init);
      RunsUniformSnoc(init, t);
    }
  }

  /** Neighbouring runs have different day names, so the runs are maximal. */
  lemma {:induction false} RunsMaximal(titles: seq<string>)
    ensures forall j :: 0 < j < |Runs(titles)| ==> Runs(titles)[j - 1].date != Runs(titles)[j].date
    decreases |titles|
  {
    if titles != [] {
      var init := titles[..|titles| - 1];
      var t := titles[|titles| - 1];
      assert titles == init + [t];
      RunsMaximal(init);
      RunsSnoc(init, t);
    }
  }

  /** The day part of a run is its last day title, rewritten; later night titles leave it alone. */
  lemma {:induction false} LastDayTitleWins(date: string, titles: seq<string>, t: string, nights: seq<string>)
    requires !IsNight(t) && forall x :: x in nights ==> IsNight(x)
    ensures DayPart(date, titles + [t] + nights) == Text.ReplaceFirst(t, date + ": ", "")
    decreases |nights|
  {
    if nights == [] {
      assert titles + [t] + nights == titles + [t];
      PartsSnoc(date, titles, t);
    } else {
      var init := nights[..|nights| - 1];
      var x := nights[|nights| - 1];
      assert titles + [t] + nights == (titles + [t] + init) + [x];
      assert x in nights;
      LastDayTitleWins(date, titles, t, init);
      PartsSnoc(date, titles + [t] + init, x);
    }
  }

  /** The night part of a run is its last night title, rewritten; later day titles leave it alone. */
  lemma {:induction false} LastNightTitleWins(date: string, titles: seq<string>, t: string, days: seq<string>)
    requires IsNight(t) && forall x :: x in days ==> !IsNight(x)
    ensures NightPart(date, titles + [t] + days) == Text.ReplaceFirst(t, date + " night: ", "<i>Night:</i> ")
    decreases |days|
  {
    if days == [] {
      assert titles + [t] + days == titles + [t];
      PartsSnoc(date, titles, t);
    } else {
      var init := days[..|days| - 1];
      var x := days[|days| - 1];
      assert titles + [t] + days == (titles + [t] + init) + [x];
      assert x in days;
      LastNightTitleWins(date, titles, t, init);
      PartsSnoc(date, titles + [t] + init, x);
    }
  }

  /** A title that spells "night" in its day-and-night separator is a night title. */
  lemma NightTitle(day: string, text: string)
    ensures IsNight(day + " night: " + text)
  {
    var t := day + " night: " + text;
    var l := Text.Lower(t);
    assert t[|day| + 1..|day| + 6] == "night";
    assert l[|day| + 1..|day| + 6] == "night";
    assert Text.OccursAt(l, "night", |day| + 1);
  }

  /** Two titles with the same day name form a single run. */
  lemma SameDayOneRun(d: string, n: string)
    requires TitleDay(d) == TitleDay(n)
    ensures Runs([d, n]) == [Run(TitleDay(d), [d, n])]
  {
    RunsSnoc([], d);
    assert [] + [d] == [d];
    RunsSnoc([d], n);
    assert [d] + [n] == [d, n];
  }

  /** The parts of the run of a day title and a night title. */
  lemma DayAndNightParts(day: string, dayText: string, nightText: string)
    requires !IsNight(day + ": " + dayText)
    ensures CardOf(Run(day, [day + ": " + dayText, day + " night: " + nightText]))
            == Card(day, dayText, "<i>Night:</i> " + nightText)
  {
    var d := day + ": " + dayText;
    var n := day + " night: " + nightText;
    NightTitle(day, nightText);
    PartsSnoc(day, [d], n);
    PartsSnoc(day, [], d);
    assert [] + [d] == [d];
    assert [d] + [n] == [d, n];
    assert Text.IsPrefix(day + ": ", d) by {
      assert d[..|day + ": "|] == day + ": ";
    }
    assert d[|day + ": "|..] == dayText;
    assert Text.IsPrefix(day + " night: ", n) by {
      assert n[..|day + " night: "|] == day + " night: ";
    }
    assert n[|day + " night: "|..] == nightText;
  }

  /**
   * A day forecast followed by the same day's night forecast make one card,
   * headed by the day's name, with the day text and the marked night text.
   */
  lemma DayAndNightMakeOneCard(day: string, dayText: string, nightText: string)
    requires day != [] && forall m :: 0 <= m < |day| ==> IsWordChar(day[m])
    requires !IsNight(day + ": " + dayText)
    ensures ForecastCards([Entry(ForecastCategory, day + ": " + dayText),
                           Entry(ForecastCategory, day + " night: " + nightText)])
            == [Card(day, dayText, "<i>Night:</i> " + nightText)]
  {
    var d := day + ": " + dayText;
    var n := day + " night: " + nightText;
    var e1 := Entry(ForecastCategory, d);
    var e2 := Entry(ForecastCategory, n);
    assert ForecastTitles([e1, e2]) == [d, n] by {
      ForecastTitlesSnoc([], e1);
      ForecastTitlesSnoc([e1], e2);
      assert [] + [e1] == [e1];
      assert [e1] + [e2] == [e1, e2];
    }
    TitleDayOfForecast(day, false, dayText);
    TitleDayOfForecast(day, true, nightText);
    SameDayOneRun(d, n);
    var card := Card(day, dayText, "<i>Night:</i> " + nightText);
    DayAndNightParts(day, dayText, nightText);
    assert Shown(card);
    ShownCardsSnoc([], Run(day, [d, n]));
    assert [] + [Run(day, [d, n])] == [Run(day, [d, n])];
  }
}
