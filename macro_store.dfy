/** The macro-tracking part of the Flask service (backend/app.py): the
    `macro_entries` table, the `daily_macro_stats` table keyed by date, the voice
    entry pipeline that feeds both, the sample-data generator, and the two read
    endpoints.  SQLite becomes fields of a `Database` object; the AI services,
    `date.today()` and `random.choice` become parameters. */
module MacroStore {
  import opened Nutrition
  import opened DateOrder

  /** A row of `macro_entries`.  `parsedFoods` is the `parsed_foods` column:
      SQL NULL or JSON text. */
  datatype MacroEntry = MacroEntry(id: nat, userInput: string, transcribedText: string,
                                   parsedFoods: Option<string>, totals: Macros, entryDate: string)

  /** A row of `medical_records` or `prescriptions` written by the sample
      generator: its file name and which of the hard-coded samples it holds. */
  datatype SampleRow = SampleRow(id: nat, filename: string, sample: nat)

  /** Auto-increment ids with no deletions: row `i` has id `i + 1`. */
  ghost predicate IdsArePositions(entries: seq<MacroEntry>)
  {
    forall i :: 0 <= i < |entries| ==> entries[i].id == i + 1
  }

  ghost predicate SampleIdsArePositions(rows: seq<SampleRow>)
  {
    forall i :: 0 <= i < |rows| ==> rows[i].id == i + 1
  }

  // ---------------------------------------------------------------------------
  // update_daily_macro_stats

  /** The stats table after recording one meal with totals `m` on `date`: an
      existing row gains the totals and one meal, otherwise a row with exactly
      `m` and one meal appears.  No other row changes. */
  function Upsert(stats: map<string, DayStats>, date: string, m: Macros): (r: map<string, DayStats>)
    ensures r.Keys == stats.Keys + {date}
    ensures forall d :: d in stats && d != date ==> r[d] == stats[d]
    ensures var prev := if date in stats then stats[date] else DayStats(NoMacros, 0);
            r[date] == DayStats(Plus(prev.totals, m), prev.mealCount + 1)
  {
    if date in stats then
      stats[date := DayStats(Plus(stats[date].totals, m), stats[date].mealCount + 1)]
    else
      stats[date := DayStats(m, 1)]
  }

  /** Sum of the totals of the entries dated `d`. */
  function DayTotal(entries: seq<MacroEntry>, d: string): Macros
  {
    if entries == [] then NoMacros
    else
      var last := entries[|entries| - 1];
      Plus(DayTotal(entries[..|entries| - 1], d), if last.entryDate == d then last.totals else NoMacros)
  }

  /** Number of entries dated `d`. */
  function MealCount(entries: seq<MacroEntry>, d: string): nat
  {
    if entries == [] then 0
    else
      var last := entries[|entries| - 1];
      MealCount(entries[..|entries| - 1], d) + (if last.entryDate == d then 1 else 0)
  }

  /** The stats table agrees with the entries table: there is a row for a date
      exactly when some entry has that date, and the row holds the sum of those
      entries' totals and their number. */
  ghost predicate Consistent(stats: map<string, DayStats>, entries: seq<MacroEntry>)
  {
    forall d :: (d in stats <==> MealCount(entries, d) > 0) &&
                (d in stats ==> stats[d] == DayStats(DayTotal(entries, d), MealCount(entries, d)))
  }

  /** Recording an entry and upserting its totals keeps the two tables in agreement. */
  lemma UpsertKeepsConsistent(stats: map<string, DayStats>, entries: seq<MacroEntry>, e: MacroEntry)
    requires Consistent(stats, entries)
    ensures Consistent(Upsert(stats, e.entryDate, e.totals), entries + [e])
  {
    var es := entries + [e];
    assert es[..|es| - 1] == entries;
    var r := Upsert(stats, e.entryDate, e.totals);
    forall d
      ensures (d in r <==> MealCount(es, d) > 0)
      ensures d in r ==> r[d] == DayStats(DayTotal(es, d), MealCount(es, d))
    {
      if d == e.entryDate && d !in stats {
        NoMealsNoTotal(entries, d);
      }
    }
  }

  /** A date with no entries has zero totals. */
  lemma {:induction false} NoMealsNoTotal(entries: seq<MacroEntry>, d: string)
    requires MealCount(entries, d) == 0
    ensures DayTotal(entries, d) == NoMacros
  {
    if entries != [] {
      NoMealsNoTotal(entries[..|entries| - 1], d);
    }
  }

  /** Totals and meal counts split over concatenation. */
  lemma {:induction false} DayTotalAppend(a: seq<MacroEntry>, b: seq<MacroEntry>, d: string)
    ensures DayTotal(a + b, d) == Plus(DayTotal(a, d), DayTotal(b, d))
    ensures MealCount(a + b, d) == MealCount(a, d) + MealCount(b, d)
  {
    if b != [] {
      var ab := a + b;
      var bInit := b[..|b| - 1];
      assert ab[..|ab| - 1] == a + bInit;
      DayTotalAppend(a, bInit, d);
    } else {
      assert a + b == a;
    }
  }

  // ---------------------------------------------------------------------------
  // process_macro_speech

  /** Python's `str.startswith('Error')`: the marker of a failed AI call. */
  predicate StartsWithError(s: string)
  {
    |s| >= 5 && s[..5] == "Error"
  }

  /** What `process_audio_with_gemini` returns when transcription throws. */
  function TranscriptionFailure(reason: string): (message: string)
    ensures StartsWithError(message)
    ensures |message| > |reason| && message[|message| - |reason|..] == reason
  {
    "Error processing audio: " + reason
  }

  /** What `parse_food_and_calculate_macros` returns when the model's reply
      cannot be parsed: always carries the `error` key. */
  function AnalysisFailure(reason: string): (data: MacroData)
    ensures data.error == Some("Error parsing food data: " + reason)
    ensures data.foods == [] && data.totals == NoMacros
  {
    MacroData(Some("Error parsing food data: " + reason), [], NoMacros, "Failed to analyze food data")
  }

  /** Outcome of the early-return checks of the voice endpoint. */
  datatype Verdict = NoAudio | Failed(message: string) | Accepted

  /** The validation chain: missing or empty audio is a client error; a
      transcription that starts with "Error" or an analysis with an `error` key
      is a server error; anything else is stored.  `transcribed` and `analysis`
      are what the two AI calls returned for this request. */
  function SpeechVerdict(audio: Option<string>, transcribed: string, analysis: MacroData): (v: Verdict)
    ensures v.Accepted? ==> audio.Some? && audio.value != "" && !StartsWithError(transcribed) && analysis.error.None?
    ensures v.Failed? ==> v.message == transcribed || Some(v.message) == analysis.error
  {
    if audio.None? || audio.value == "" then NoAudio
    else if StartsWithError(transcribed) then Failed(transcribed)
    else if analysis.error.Some? then Failed(analysis.error.value)
    else Accepted
  }

  /** A failed transcription never reaches the tables. */
  lemma FailedTranscriptionRejected(audio: string, reason: string, analysis: MacroData)
    requires audio != ""
    ensures SpeechVerdict(Some(audio), TranscriptionFailure(reason), analysis) == Failed(TranscriptionFailure(reason))
  {
    assert TranscriptionFailure(reason)[..5] == "Error";
  }

  /** The analysis fallback always takes the 500 path. */
  lemma FailedAnalysisRejected(audio: string, transcribed: string, reason: string)
    requires audio != "" && !StartsWithError(transcribed)
    ensures SpeechVerdict(Some(audio), transcribed, AnalysisFailure(reason)) == Failed("Error parsing food data: " + reason)
  {
  }

  datatype SpeechBody =
    | SpeechError(error: string)
    | SpeechCreated(id: nat, transcribedText: string, macroData: MacroData, entryDate: string, message: string)

  /** An HTTP response: status code and JSON body. */
  datatype SpeechResponse = SpeechResponse(status: int, body: SpeechBody)

  const VoiceInput := "voice_input"
  const SampleData := "sample_data"

  // ---------------------------------------------------------------------------
  // get_daily_macro_stats

  const DefaultStatsDays := 7

  /** The `days` query argument: 7 when absent or not an integer. */
  function StatsLimit(days: Option<int>): (limit: int)
    ensures days.None? ==> limit == DefaultStatsDays
    ensures days.Some? ==> limit == days.value
  {
    if days.None? then DefaultStatsDays else days.value
  }

  function Min(a: int, b: int): int
  {
    if a <= b then a else b
  }

  /** `ORDER BY entry_date DESC LIMIT days` over the stats table.  A negative
      LIMIT is no limit in SQLite; LIMIT 0 yields no rows. */
  ghost function GetDailyMacroStats(stats: map<string, DayStats>, days: Option<int>): (rows: seq<StatRow>)
    ensures StatsLimit(days) >= 0 ==> |rows| == Min(StatsLimit(days), |stats.Keys|)
    ensures StatsLimit(days) < 0 ==> |rows| == |stats.Keys|
    ensures forall i :: 0 <= i < |rows| ==> rows[i].entryDate in stats && rows[i].stats == stats[rows[i].entryDate]
    ensures forall i, j :: 0 <= i < j < |rows| ==> Before(rows[j].entryDate, rows[i].entryDate)
  {
    DescendingListsAll(stats.Keys);
    var all := Descending(stats.Keys);
    var n := if StatsLimit(days) < 0 then |all| else Min(StatsLimit(days), |all|);
    seq(n, i requires 0 <= i < n => StatRow(all[i], stats[all[i]]))
  }

  /** The rows kept by the limit are the newest: a date of the table that is not
      returned sorts before every returned date. */
  lemma StatsNewestFirst(stats: map<string, DayStats>, days: Option<int>, d: string, i: nat)
    requires d in stats && i < |GetDailyMacroStats(stats, days)|
    requires forall k :: 0 <= k < |GetDailyMacroStats(stats, days)| ==> GetDailyMacroStats(stats, days)[k].entryDate != d
    ensures Before(d, GetDailyMacroStats(stats, days)[i].entryDate)
  {
    var rows := GetDailyMacroStats(stats, days);
    var all := Descending(stats.Keys);
    var n := |rows|;
    assert forall k :: 0 <= k < n ==> rows[k].entryDate == all[k];
    forall k | 0 <= k < n
      ensures all[..n][k] != d
    {
      assert rows[k].entryDate != d;
    }
    NewestKept(stats.Keys, n, d, i);
  }

  // ---------------------------------------------------------------------------
  // get_macro_entry

  /** `SELECT ... WHERE id = ?`. */
  function FindEntry(entries: seq<MacroEntry>, id: int): (r: Option<MacroEntry>)
    ensures r.Some? ==> r.value in entries && r.value.id == id
    ensures r.None? ==> forall e :: e in entries ==> e.id != id
  {
    if entries == [] then None
    else if entries[0].id == id then Some(entries[0])
    else FindEntry(entries[1..], id)
  }

  /** The `foods` of the detail response: the decoded `parsed_foods`, or the
      empty list when the column is NULL, empty, or not valid JSON.  `decode`
      stands for `json.loads`, `None` for a JSONDecodeError. */
  function FoodsOrEmpty(column: Option<string>, decode: string -> Option<seq<Food>>): (foods: seq<Food>)
    ensures column.None? || column == Some("") ==> foods == []
    ensures column.Some? && column.value != "" && decode(column.value).None? ==> foods == []
    ensures column.Some? && column.value != "" && decode(column.value).Some? ==> foods == decode(column.value).value
  {
    if column.None? || column.value == "" then []
    else match decode(column.value)
      case None => []
      case Some(fs) => fs
  }

  datatype EntryDetail = EntryDetail(id: nat, userInput: string, transcribedText: string,
                                     foods: seq<Food>, totals: Macros, entryDate: string)

  /** 404 or the entry with its food breakdown. */
  datatype EntryResponse = EntryNotFound | EntryFound(detail: EntryDetail)

  function GetMacroEntry(entries: seq<MacroEntry>, id: int, decode: string -> Option<seq<Food>>): (r: EntryResponse)
    ensures r.EntryNotFound? <==> forall e :: e in entries ==> e.id != id
    ensures r.EntryFound? ==> r.detail.id == id
    ensures r.EntryFound? ==> exists e :: e in entries && e.id == id && r.detail == Detail(e, decode)
  {
    match FindEntry(entries, id)
    case None => EntryNotFound
    case Some(e) => EntryFound(Detail(e, decode))
  }

  /** The detail view of a stored entry. */
  function Detail(e: MacroEntry, decode: string -> Option<seq<Food>>): (d: EntryDetail)
    ensures d.id == e.id && d.userInput == e.userInput && d.transcribedText == e.transcribedText
    ensures d.totals == e.totals && d.entryDate == e.entryDate
    ensures d.foods == FoodsOrEmpty(e.parsedFoods, decode)
  {
    EntryDetail(e.id, e.userInput, e.transcribedText, FoodsOrEmpty(e.parsedFoods, decode), e.totals, e.entryDate)
  }

  /** An entry stored with `json.dumps(foods)` reads back with the same foods,
      given that `json.loads` inverts `json.dumps` and `json.dumps` never yields
      the empty string. */
  lemma {:induction false} StoredFoodsReadBack(entries: seq<MacroEntry>, e: MacroEntry, foods: seq<Food>,
                                               encode: seq<Food> -> string, decode: string -> Option<seq<Food>>)
    requires IdsArePositions(entries) && e.id == |entries| + 1
    requires e.parsedFoods == Some(encode(foods)) && encode(foods) != "" && decode(encode(foods)) == Some(foods)
    ensures GetMacroEntry(entries + [e], e.id, decode) ==
            EntryFound(EntryDetail(e.id, e.userInput, e.transcribedText, foods, e.totals, e.entryDate))
  {
    var es := entries + [e];
    assert forall k :: 0 <= k < |entries| ==> es[k].id == k + 1;
    NoEarlierId(es, 0, e.id);
  }

  /** With positional ids, the search from `start` reaches the last row. */
  lemma {:induction false} NoEarlierId(es: seq<MacroEntry>, start: nat, id: nat)
    requires 0 < |es| && start < |es| && id == |es| && es[|es| - 1].id == id
    requires forall k :: 0 <= k < |es| - 1 ==> es[k].id == k + 1
    ensures FindEntry(es[start..], id) == Some(es[|es| - 1])
    decreases |es| - start
  {
    if start < |es| - 1 {
      assert es[start..][0] == es[start];
      assert es[start..][1..] == es[start + 1..];
      NoEarlierId(es, start + 1, id);
    }
  }

  // ---------------------------------------------------------------------------
  // create_sample_medical_record: the hard-coded meals

  /** One of the sample meals: its transcription, foods and stated totals. */
  datatype SampleMeal = SampleMeal(transcribedText: string, foods: seq<Food>, totals: Macros)

  function SampleFood(name: string, quantity: string, calories: real, protein: real, carbs: real, fat: real): Food
  {
    Food(name, quantity, Macros(calories, protein, carbs, fat))
  }

  function SampleMeals(): (meals: seq<SampleMeal>)
    ensures |meals| == 3
  {
    [ SampleMeal("I had scrambled eggs with whole wheat toast and avocado for breakfast",
                 [ SampleFood("Scrambled eggs", "2 large eggs", 140.0, 12.0, 1.0, 10.0),
                   SampleFood("Whole wheat toast", "2 slices", 160.0, 6.0, 30.0, 2.0),
                   SampleFood("Avocado", "1/2 medium", 160.0, 2.0, 9.0, 15.0) ],
                 Macros(460.0, 20.0, 40.0, 27.0)),
      SampleMeal("For lunch I ate a grilled chicken salad with mixed greens and olive oil dressing",
                 [ SampleFood("Grilled chicken breast", "4 oz", 185.0, 35.0, 0.0, 4.0),
                   SampleFood("Mixed green salad", "2 cups", 20.0, 2.0, 4.0, 0.0),
                   SampleFood("Olive oil dressing", "2 tbsp", 120.0, 0.0, 0.0, 14.0) ],
                 Macros(325.0, 37.0, 4.0, 18.0)),
      SampleMeal("Dinner was salmon with quinoa and steamed broccoli",
                 [ SampleFood("Baked salmon", "5 oz", 280.0, 40.0, 0.0, 12.0),
                   SampleFood("Quinoa", "1 cup cooked", 220.0, 8.0, 39.0, 4.0),
                   SampleFood("Steamed broccoli", "1 cup", 25.0, 3.0, 5.0, 0.0) ],
                 Macros(525.0, 51.0, 44.0, 16.0)) ]
  }

  /** Sum of the macros of a list of foods. */
  function FoodsTotal(foods: seq<Food>): Macros
  {
    if foods == [] then NoMacros else Plus(foods[0].macros, FoodsTotal(foods[1..]))
  }

  /** Sum of the stated totals of a list of meals (what the accumulator loop computes). */
  function MealsTotal(meals: seq<SampleMeal>): Macros
  {
    if meals == [] then NoMacros else Plus(MealsTotal(meals[..|meals| - 1]), meals[|meals| - 1].totals)
  }

  /** Each sample meal's stated totals are the sum of its foods. */
  lemma SampleTotalsMatchFoods(i: nat)
    requires i < |SampleMeals()|
    ensures SampleMeals()[i].totals == FoodsTotal(SampleMeals()[i].foods)
  {
    var foods := SampleMeals()[i].foods;
    FoodsTotalOfThree(foods);
  }

  /** The sum over a three-food list, unfolded. */
  lemma FoodsTotalOfThree(foods: seq<Food>)
    requires |foods| == 3
    ensures FoodsTotal(foods) == Plus(foods[0].macros, Plus(foods[1].macros, Plus(foods[2].macros, NoMacros)))
  {
    var rest := foods[1..];
    var last := rest[1..];
    assert rest[0] == foods[1] && last[0] == foods[2] && last[1..] == [];
    assert FoodsTotal(last) == Plus(foods[2].macros, NoMacros);
    assert FoodsTotal(rest) == Plus(foods[1].macros, FoodsTotal(last));
  }

  /** The three sample meals add up to 1310 kcal, 108 g protein, 88 g carbs, 61 g fat. */
  lemma SampleDayTotal()
    ensures MealsTotal(SampleMeals()) == Macros(1310.0, 108.0, 88.0, 61.0)
  {
    var meals := SampleMeals();
    assert meals[..2][..1][..0] == [];
    assert MealsTotal(meals[..1]) == Macros(460.0, 20.0, 40.0, 27.0);
    assert MealsTotal(meals[..2]) == Macros(785.0, 57.0, 44.0, 45.0);
  }

  /** The `macro_entries` rows the sample generator writes for `meals`, with ids
      following `base`. */
  function SampleEntries(meals: seq<SampleMeal>, base: nat, today: string, encode: seq<Food> -> string): (rows: seq<MacroEntry>)
    ensures |rows| == |meals|
  {
    if meals == [] then []
    else
      var last := meals[|meals| - 1];
      SampleEntries(meals[..|meals| - 1], base, today, encode) +
        [MacroEntry(base + |meals|, SampleData, last.transcribedText, Some(encode(last.foods)), last.totals, today)]
  }

  /** One more meal adds its totals to the sum and one row, with the next id,
      to the rows. */
  lemma SampleStep(meals: seq<SampleMeal>, i: nat, base: nat, today: string, encode: seq<Food> -> string)
    requires i < |meals|
    ensures MealsTotal(meals[..i + 1]) == Plus(MealsTotal(meals[..i]), meals[i].totals)
    ensures SampleEntries(meals[..i + 1], base, today, encode) ==
            SampleEntries(meals[..i], base, today, encode) +
            [MacroEntry(base + i + 1, SampleData, meals[i].transcribedText, Some(encode(meals[i].foods)), meals[i].totals, today)]
  {
    assert meals[..i + 1][..i] == meals[..i];
  }

  /** All sample rows are dated `today`, so they add their meals' totals to that day only. */
  lemma {:induction false} SampleEntriesDayTotal(meals: seq<SampleMeal>, base: nat, today: string, encode: seq<Food> -> string, d: string)
    ensures DayTotal(SampleEntries(meals, base, today, encode), d) == (if d == today then MealsTotal(meals) else NoMacros)
  {
    if meals != [] {
      var rows := SampleEntries(meals, base, today, encode);
      var init := meals[..|meals| - 1];
      SampleEntriesLast(meals, base, today, encode);
      SampleEntriesDayTotal(init, base, today, encode, d);
    }
  }

  /** ... and one meal each to that day only. */
  lemma {:induction false} SampleEntriesMealCount(meals: seq<SampleMeal>, base: nat, today: string, encode: seq<Food> -> string, d: string)
    ensures MealCount(SampleEntries(meals, base, today, encode), d) == (if d == today then |meals| else 0)
  {
    if meals != [] {
      var init := meals[..|meals| - 1];
      SampleEntriesLast(meals, base, today, encode);
      SampleEntriesMealCount(init, base, today, encode, d);
    }
  }

  /** The last sample row belongs to the last meal and is dated `today`. */
  lemma SampleEntriesLast(meals: seq<SampleMeal>, base: nat, today: string, encode: seq<Food> -> string)
    requires meals != []
    ensures var rows := SampleEntries(meals, base, today, encode);
            rows[..|rows| - 1] == SampleEntries(meals[..|meals| - 1], base, today, encode) &&
            rows[|rows| - 1].entryDate == today && rows[|rows| - 1].totals == meals[|meals| - 1].totals
  {
    var rows := SampleEntries(meals, base, today, encode);
    var init := SampleEntries(meals[..|meals| - 1], base, today, encode);
    var last := meals[|meals| - 1];
    var lastRow := MacroEntry(base + |meals|, SampleData, last.transcribedText, Some(encode(last.foods)), last.totals, today);
    assert rows == init + [lastRow];
    assert rows[..|rows| - 1] == init;
  }

  /** On a day without a stats row, the sample generator leaves the tables in agreement. */
  lemma SampleOnFreshDayConsistent(stats: map<string, DayStats>, entries: seq<MacroEntry>, today: string, encode: seq<Food> -> string)
    requires Consistent(stats, entries) && today !in stats
    ensures Consistent(stats[today := DayStats(MealsTotal(SampleMeals()), 3)],
                       entries + SampleEntries(SampleMeals(), |entries|, today, encode))
  {
    ReplacingFreshDayConsistent(stats, entries, SampleMeals(), today, encode);
  }

  /** Replacing the row of a day that had none by the totals and number of
      meals appended for that day keeps the tables in agreement. */
  lemma ReplacingFreshDayConsistent(stats: map<string, DayStats>, entries: seq<MacroEntry>, meals: seq<SampleMeal>,
                                    today: string, encode: seq<Food> -> string)
    requires Consistent(stats, entries) && today !in stats && meals != []
    ensures Consistent(stats[today := DayStats(MealsTotal(meals), |meals|)],
                       entries + SampleEntries(meals, |entries|, today, encode))
  {
    var rows := SampleEntries(meals, |entries|, today, encode);
    var r := stats[today := DayStats(MealsTotal(meals), |meals|)];
    forall d
      ensures (d in r <==> MealCount(entries + rows, d) > 0)
      ensures d in r ==> r[d] == DayStats(DayTotal(entries + rows, d), MealCount(entries + rows, d))
    {
      ReplacingFreshDayAt(stats, entries, meals, today, encode, d);
    }
  }

  lemma ReplacingFreshDayAt(stats: map<string, DayStats>, entries: seq<MacroEntry>, meals: seq<SampleMeal>,
                            today: string, encode: seq<Food> -> string, d: string)
    requires Consistent(stats, entries) && today !in stats && meals != []
    ensures var rows := SampleEntries(meals, |entries|, today, encode);
            var r := stats[today := DayStats(MealsTotal(meals), |meals|)];
            (d in r <==> MealCount(entries + rows, d) > 0) &&
            (d in r ==> r[d] == DayStats(DayTotal(entries + rows, d), MealCount(entries + rows, d)))
  {
    var rows := SampleEntries(meals, |entries|, today, encode);
    DayTotalAppend(entries, rows, d);
    SampleEntriesDayTotal(meals, |entries|, today, encode, d);
    SampleEntriesMealCount(meals, |entries|, today, encode, d);
    assert d in stats <==> MealCount(entries, d) > 0;
    if d == today {
      NoMealsNoTotal(entries, d);
    } else if d in stats {
      assert stats[d] == DayStats(DayTotal(entries, d), MealCount(entries, d));
    }
  }

  /** On a day that already has a stats row, INSERT OR REPLACE drops the meals
      logged earlier that day from the row: its meal count is 3 while the entries
      table holds more meals for that date. */
  lemma SampleOverwriteDropsEarlierMeals(stats: map<string, DayStats>, entries: seq<MacroEntry>, today: string, encode: seq<Food> -> string)
    requires Consistent(stats, entries) && today in stats
    ensures MealCount(entries + SampleEntries(SampleMeals(), |entries|, today, encode), today) > 3
    ensures !Consistent(stats[today := DayStats(MealsTotal(SampleMeals()), 3)],
                        entries + SampleEntries(SampleMeals(), |entries|, today, encode))
  {
    var meals := SampleMeals();
    var rows := SampleEntries(meals, |entries|, today, encode);
    DayTotalAppend(entries, rows, today);
    SampleEntriesMealCount(meals, |entries|, today, encode, today);
  }

  /** Body of the sample endpoint's success response. */
  datatype SampleResponse = SampleCreated(medicalRecordId: nat, prescriptionId: nat, macroEntriesCreated: nat)

  const DefaultSampleFilename := "sample_document.pdf"

  // ---------------------------------------------------------------------------
  // The database

  class Database {
    var dailyStats: map<string, DayStats>
    var entries: seq<MacroEntry>
    var records: seq<SampleRow>
    var prescriptions: seq<SampleRow>

    ghost predicate Valid()
      reads this
    {
      IdsArePositions(entries) && SampleIdsArePositions(records) && SampleIdsArePositions(prescriptions)
    }

    /** `init_db`: empty tables. */
    constructor ()
      ensures Valid() && Consistent(dailyStats, entries)
      ensures dailyStats == map[] && entries == [] && records == [] && prescriptions == []
    {
      dailyStats := map[];
      entries := [];
      records := [];
      prescriptions := [];
    }

    /** `update_daily_macro_stats`: read the row for the date, then update it in
        place or insert a fresh one. */
    method UpdateDailyMacroStats(entryDate: string, m: Macros)
      modifies this`dailyStats
      ensures dailyStats == Upsert(old(dailyStats), entryDate, m)
    {
      if entryDate in dailyStats {
        var existing := dailyStats[entryDate];
        var newTotals := Plus(existing.totals, m);
        var newMealCount := existing.mealCount + 1;
        dailyStats := dailyStats[entryDate := DayStats(newTotals, newMealCount)];
      } else {
        dailyStats := dailyStats[entryDate := DayStats(m, 1)];
      }
    }

    /** INSERT INTO macro_entries; returns `lastrowid`. */
    method InsertMacroEntry(userInput: string, transcribedText: string, parsedFoods: Option<string>,
                            totals: Macros, entryDate: string) returns (id: nat)
      requires Valid()
      modifies this`entries
      ensures Valid()
      ensures id == |old(entries)| + 1
      ensures entries == old(entries) + [MacroEntry(id, userInput, transcribedText, parsedFoods, totals, entryDate)]
    {
      id := |entries| + 1;
      entries := entries + [MacroEntry(id, userInput, transcribedText, parsedFoods, totals, entryDate)];
    }

    /** `process_macro_speech`.  `transcribed` is what the transcription call
        returned for `audio`, `analysis` what the nutrition analysis returned for
        `transcribed`, `today` the server's date and `encode` stands for
        `json.dumps`. */
    method ProcessMacroSpeech(audio: Option<string>, transcribed: string, analysis: MacroData,
                              today: string, encode: seq<Food> -> string) returns (resp: SpeechResponse)
      requires Valid()
      modifies this`entries, this`dailyStats
      ensures Valid()
      ensures resp.status == 400 <==> audio.None? || audio.value == ""
      ensures resp.status == 200 <==> SpeechVerdict(audio, transcribed, analysis).Accepted?
      ensures resp.status != 200 ==>
        entries == old(entries) && dailyStats == old(dailyStats) && resp.body.SpeechError?
      ensures SpeechVerdict(audio, transcribed, analysis).Failed? ==>
        resp.status == 500 && resp.body == SpeechError(SpeechVerdict(audio, transcribed, analysis).message)
      ensures resp.status == 200 ==>
        var e := MacroEntry(|old(entries)| + 1, VoiceInput, transcribed, Some(encode(analysis.foods)), analysis.totals, today);
        entries == old(entries) + [e] &&
        dailyStats == Upsert(old(dailyStats), today, analysis.totals) &&
        resp.body == SpeechCreated(e.id, transcribed, analysis, today, "Macro entry processed successfully")
      ensures Consistent(old(dailyStats), old(entries)) ==> Consistent(dailyStats, entries)
    {
      if audio.None? || audio.value == "" {
        return SpeechResponse(400, SpeechError("No audio data provided"));
      }
      if StartsWithError(transcribed) {
        return SpeechResponse(500, SpeechError(transcribed));
      }
      if analysis.error.Some? {
        return SpeechResponse(500, SpeechError(analysis.error.value));
      }
      var entryDate := today;
      ghost var before := entries;
      var entryId := InsertMacroEntry(VoiceInput, transcribed, Some(encode(analysis.foods)), analysis.totals, entryDate);
      UpdateDailyMacroStats(entryDate, analysis.totals);
      if Consistent(old(dailyStats), before) {
        UpsertKeepsConsistent(old(dailyStats), before, entries[|entries| - 1]);
      }
      resp := SpeechResponse(200, SpeechCreated(entryId, transcribed, analysis, entryDate, "Macro entry processed successfully"));
    }

    /** The loop of `create_sample_medical_record`: insert one `sample_data`
        row per meal, dated `entryDate`, and add each meal's totals to four
        running sums, which are returned. */
    method InsertSampleMeals(meals: seq<SampleMeal>, entryDate: string, encode: seq<Food> -> string) returns (total: Macros)
      requires Valid()
      modifies this`entries
      ensures Valid()
      ensures entries == old(entries) + SampleEntries(meals, |old(entries)|, entryDate, encode)
      ensures total == MealsTotal(meals)
    {
      var calories, protein, carbs, fat := 0.0, 0.0, 0.0, 0.0;
      for i := 0 to |meals|
        invariant Valid()
        invariant Macros(calories, protein, carbs, fat) == MealsTotal(meals[..i])
        invariant entries == old(entries) + SampleEntries(meals[..i], |old(entries)|, entryDate, encode)
      {
        var meal := meals[i];
        SampleStep(meals, i, |old(entries)|, entryDate, encode);
        var _ := InsertMacroEntry(SampleData, meal.transcribedText, Some(encode(meal.foods)), meal.totals, entryDate);
        calories := calories + meal.totals.calories;
        protein := protein + meal.totals.protein;
        carbs := carbs + meal.totals.carbs;
        fat := fat + meal.totals.fat;
      }
      assert meals[..|meals|] == meals;
      total := Macros(calories, protein, carbs, fat);
    }

    /** `create_sample_medical_record`: one chosen sample record, one chosen
        sample prescription, the three sample meals dated today with their totals
        accumulated in a loop, then today's stats row replaced by those sums with
        a meal count of 3.  `filename` is the request's `filename` key;
        `recordChoice` and `prescriptionChoice` are what `random.choice` picked. */
    method CreateSampleMedicalRecord(filename: Option<string>, recordChoice: nat, prescriptionChoice: nat,
                                     today: string, encode: seq<Food> -> string) returns (resp: SampleResponse)
      requires Valid()
      requires recordChoice < 3 && prescriptionChoice < 2
      modifies this
      ensures Valid()
      ensures var name := if filename.None? then DefaultSampleFilename else filename.value;
        records == old(records) + [SampleRow(|old(records)| + 1, name, recordChoice)] &&
        prescriptions == old(prescriptions) + [SampleRow(|old(prescriptions)| + 1, "prescription_" + name, prescriptionChoice)]
      ensures entries == old(entries) + SampleEntries(SampleMeals(), |old(entries)|, today, encode)
      ensures dailyStats == old(dailyStats)[today := DayStats(MealsTotal(SampleMeals()), 3)]
      ensures resp == SampleCreated(|records|, |prescriptions|, 3)
    {
      var name := if filename.None? then DefaultSampleFilename else filename.value;
      var recordId := |records| + 1;
      records := records + [SampleRow(recordId, name, recordChoice)];
      var prescriptionId := |prescriptions| + 1;
      prescriptions := prescriptions + [SampleRow(prescriptionId, "prescription_" + name, prescriptionChoice)];

      var meals := SampleMeals();
      var entryDate := today;
      var total := InsertSampleMeals(meals, entryDate, encode);
      dailyStats := dailyStats[entryDate := DayStats(total, 3)];
      resp := SampleCreated(recordId, prescriptionId, |meals|);
    }
  }
}
