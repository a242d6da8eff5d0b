/** The data shaping of the charts component
    (frontend/src/components/MacroChart.jsx): the lookup of today's stats row,
    the three-slice pie data and its colours, and the list of recent entries
    with their shortened transcriptions.  All of it is pure. */
module MacroChart {
  import opened Nutrition
  import opened DateOrder
  import MacroStore

  /** A slice of the macro pie: grams of one macro and its share of the three
      macros in percent, before `toFixed(1)` turns it into text. */
  datatype Slice = Slice(name: string, value: real, percentage: real)

  const PieColors: seq<string> := ["#8884d8", "#82ca9d", "#ffc658"]

  /** Grams of protein, carbs and fat together.  With no negative amounts it
      is zero exactly when all three are. */
  function MacroGrams(stats: DayStats): (grams: real)
    ensures stats.totals.protein >= 0.0 && stats.totals.carbs >= 0.0 && stats.totals.fat >= 0.0 ==>
      (grams == 0.0 <==> stats.totals.protein == 0.0 && stats.totals.carbs == 0.0 && stats.totals.fat == 0.0)
  {
    stats.totals.protein + stats.totals.carbs + stats.totals.fat
  }

  /** `getPieChartData`: nothing without stats or without any macro grams,
      otherwise Protein, Carbs and Fat in that order, each with its grams and its
      share of the total. */
  function PieChartData(row: Option<StatRow>): (slices: seq<Slice>)
    ensures slices == [] <==> row.None? || MacroGrams(row.value.stats) == 0.0
    ensures slices != [] ==>
      var t := row.value.stats.totals;
      |slices| == 3 &&
      slices[0].name == "Protein" && slices[0].value == t.protein &&
      slices[1].name == "Carbs" && slices[1].value == t.carbs &&
      slices[2].name == "Fat" && slices[2].value == t.fat
    ensures slices != [] ==> forall i :: 0 <= i < |slices| ==>
      slices[i].percentage * MacroGrams(row.value.stats) == slices[i].value * 100.0
  {
    if row.None? then []
    else
      var t := row.value.stats.totals;
      var total := MacroGrams(row.value.stats);
      if total == 0.0 then []
      else
        [ Slice("Protein", t.protein, t.protein / total * 100.0),
          Slice("Carbs", t.carbs, t.carbs / total * 100.0),
          Slice("Fat", t.fat, t.fat / total * 100.0) ]
  }

  /** The three shares add up to 100 percent. */
  lemma PercentagesSumTo100(row: Option<StatRow>)
    requires PieChartData(row) != []
    ensures var s := PieChartData(row); s[0].percentage + s[1].percentage + s[2].percentage == 100.0
  {
    var t := row.value.stats.totals;
    SharesAddUp(t.protein, t.carbs, t.fat);
  }

  /** With no negative grams, each share lies between 0 and 100 percent. */
  lemma PercentagesWithinRange(row: Option<StatRow>, i: nat)
    requires PieChartData(row) != [] && i < 3
    requires row.value.stats.totals.protein >= 0.0 && row.value.stats.totals.carbs >= 0.0 && row.value.stats.totals.fat >= 0.0
    ensures 0.0 <= PieChartData(row)[i].percentage <= 100.0
  {
    var total := MacroGrams(row.value.stats);
    var v := PieChartData(row)[i].value;
    assert 0.0 <= v <= total;
    ShareAtMostWhole(v, total);
  }

  lemma SharesAddUp(a: real, b: real, c: real)
    requires a + b + c != 0.0
    ensures var n := a + b + c; a / n * 100.0 + b / n * 100.0 + c / n * 100.0 == 100.0
  {
    var n := a + b + c;
    assert a / n + b / n + c / n == n / n;
  }

  lemma ShareAtMostWhole(v: real, total: real)
    requires 0.0 <= v <= total && total > 0.0
    ensures 0.0 <= v / total * 100.0 <= 100.0
  {
    var q := v / total;
    assert q * total == v;
    assert (1.0 - q) * total == total - v;
  }

  /** The fill of the cell at `index`: `PIE_COLORS[index % PIE_COLORS.length]`. */
  function PieColor(index: nat): (c: string)
    ensures c in PieColors
  {
    PieColors[index % |PieColors|]
  }

  /** The legend indexes `PIE_COLORS` without the modulo; since the pie never
      has more than three slices, the legend colour of each slice is its cell
      colour. */
  lemma LegendMatchesCells(row: Option<StatRow>, i: nat)
    requires i < |PieChartData(row)|
    ensures i < |PieColors| && PieColor(i) == PieColors[i]
  {
  }

  /** `dailyStats.find(stat => stat.entry_date === today)`: the first row dated
      `today`, if any. */
  function TodayStats(rows: seq<StatRow>, today: string): (r: Option<StatRow>)
    ensures r.None? <==> forall i :: 0 <= i < |rows| ==> rows[i].entryDate != today
    ensures r.Some? ==> exists i :: 0 <= i < |rows| && rows[i] == r.value && r.value.entryDate == today &&
                                    forall j :: 0 <= j < i ==> rows[j].entryDate != today
  {
    if rows == [] then None
    else if rows[0].entryDate == today then Some(rows[0])
    else
      var r := TodayStats(rows[1..], today);
      assert r.Some? ==> exists i :: 0 <= i < |rows[1..]| && rows[1..][i] == r.value &&
                                     forall j :: 0 <= j < i ==> rows[1..][j].entryDate != today;
      assert forall i :: 0 < i < |rows| ==> rows[i] == rows[1..][i - 1];
      r
  }

  /** `dailyData.reverse()`. */
  function Reverse<T>(s: seq<T>): (r: seq<T>)
    ensures |r| == |s| && forall i :: 0 <= i < |s| ==> r[i] == s[|s| - 1 - i]
  {
    if s == [] then [] else Reverse(s[1..]) + [s[0]]
  }

  /** The chart's "today" lookup over the stats it fetches (`?days=14`, reversed
      into chronological order) finds the stats table's row for today, provided
      the table holds a row for today and no later date, and the client's date
      string equals the server's. */
  lemma TodayFoundInFetchedStats(stats: map<string, DayStats>, today: string)
    requires today in stats && forall d :: d in stats ==> !Before(today, d)
    ensures TodayStats(Reverse(MacroStore.GetDailyMacroStats(stats, Some(14))), today) == Some(StatRow(today, stats[today]))
  {
    var rows := MacroStore.GetDailyMacroStats(stats, Some(14));
    assert |rows| >= 1 by {
      assert |stats.Keys| >= 1 by { assert today in stats.Keys; }
    }
    // The newest row is today's: today is fetched, since otherwise it would
    // sort before a fetched date, and nothing fetched sorts after it.
    if forall k :: 0 <= k < |rows| ==> rows[k].entryDate != today {
      MacroStore.StatsNewestFirst(stats, Some(14), today, 0);
      assert false;
    }
    var k :| 0 <= k < |rows| && rows[k].entryDate == today;
    assert !Before(today, rows[0].entryDate);
    assert k == 0;
    // No other fetched row carries today's date.
    forall i | 0 < i < |rows|
      ensures rows[i].entryDate != today
    {
      BeforeAsymmetric(rows[i].entryDate, rows[0].entryDate);
    }
    var chrono := Reverse(rows);
    FirstMatchIsOnlyMatch(chrono, today, |chrono| - 1);
  }

  /** A row that is the only one dated `today` is what the lookup finds. */
  lemma FirstMatchIsOnlyMatch(rows: seq<StatRow>, today: string, k: nat)
    requires k < |rows| && rows[k].entryDate == today
    requires forall i :: 0 <= i < |rows| && i != k ==> rows[i].entryDate != today
    ensures TodayStats(rows, today) == Some(rows[k])
  {
  }

  /** One element of the entries list the charts component fetches. */
  datatype EntrySummary = EntrySummary(id: nat, transcribedText: string, totals: Macros, entryDate: string, createdAt: string)

  const RecentLimit := 5
  const PreviewLength := 50

  /** `macroEntries.slice(0, 5)`: the first five entries, in the given order. */
  function RecentEntries<T>(entries: seq<T>): (recent: seq<T>)
    ensures |recent| <= RecentLimit && |recent| <= |entries|
    ensures |entries| >= RecentLimit ==> |recent| == RecentLimit
    ensures |entries| < RecentLimit ==> recent == entries
    ensures forall i :: 0 <= i < |recent| ==> recent[i] == entries[i]
  {
    if |entries| <= RecentLimit then entries else entries[..RecentLimit]
  }

  /** The transcription as the list shows it: the first 50 characters followed
      by "..." when it is longer than 50 characters, otherwise unchanged. */
  function Preview(text: string): (shown: string)
    ensures |text| <= PreviewLength ==> shown == text
    ensures |text| > PreviewLength ==> |shown| == PreviewLength + 3 && shown[..PreviewLength] == text[..PreviewLength]
    ensures |text| > PreviewLength ==> shown[PreviewLength..] == "..."
  {
    if |text| > PreviewLength then text[..PreviewLength] + "..." else text
  }

  /** A preview is never longer than 53 characters and always starts with the
      text's first (up to) 50 characters; shortening a preview again changes
      nothing. */
  lemma PreviewBoundedAndStable(text: string)
    ensures |Preview(text)| <= PreviewLength + 3
    ensures Preview(Preview(text)) == Preview(text)
    ensures var n := if |text| < PreviewLength then |text| else PreviewLength;
            Preview(text)[..n] == text[..n]
  {
    if |text| > PreviewLength {
      var shown := Preview(text);
      assert shown[..PreviewLength] == text[..PreviewLength];
      assert Preview(shown) == shown[..PreviewLength] + "...";
      assert shown == shown[..PreviewLength] + shown[PreviewLength..];
    }
  }

  /** The lines of the recent-entries list: at most five previews, one per
      entry, in the entries' order. */
  function RecentPreviews(entries: seq<EntrySummary>): (lines: seq<string>)
    ensures |lines| == |RecentEntries(entries)|
    ensures forall i :: 0 <= i < |lines| ==> lines[i] == Preview(entries[i].transcribedText)
  {
    var recent := RecentEntries(entries);
    seq(|recent|, i requires 0 <= i < |recent| => Preview(recent[i].transcribedText))
  }
}
