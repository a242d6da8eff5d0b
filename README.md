# HealthVault macro tracking, modelled in Dafny

HealthVault lets a user log meals by voice and see the results in charts.

- **The Flask service (`backend/app.py`).** It transcribes the recording, has it analysed into foods and macro totals, and stores one row per meal in `macro_entries`. It also keeps one row per calendar day in `daily_macro_stats` with the day's totals and meal count. A sample-data endpoint writes three fixed meals for today and overwrites today's stats row. Two read endpoints return the newest daily stats and the details of one entry.
- **The voice logger (`frontend/src/components/MacroLogger.jsx`).** A React component that asks for the microphone, records chunks, turns them into an audio blob and sends it to the service.
- **The charts component (`frontend/src/components/MacroChart.jsx`).** It finds today's stats row, turns it into a three-slice pie with colours, and lists the five most recent entries with shortened transcriptions.

The model has five modules:

- `Nutrition` (`nutrition.dfy`): the shared value types. These are macro totals as exact reals, foods, the analysis record with its optional `error` key, and day stats.
- `DateOrder` (`date_order.dfy`): SQLite's text order on `entry_date`, proved a strict total order. It also gives the descending listing that `ORDER BY entry_date DESC` produces.
- `MacroStore` (`macro_store.dfy`): the backend. The tables are fields of a `Database` class: a map keyed by date and sequences of rows. Auto-increment ids are row positions. The AI calls, `json.dumps`/`json.loads`, `date.today()` and `random.choice` are parameters. The invariant `Consistent(stats, entries)` says each stats row holds the sum and the count of that day's entries.
  - The modelled voice endpoint preserves it. The real one can break it in two ways (see "## Left out"). When `update_daily_macro_stats` fails, the entry is already stored and the response is still 200. When two voice requests for the same day interleave between that function's read and its write, one meal's totals are lost or its entry is never counted.
  - The sample endpoint preserves it only on a day that had no row. On a day that already had meals, `INSERT OR REPLACE` sets the meal count to 3 while the entries table holds more meals for that date. `SampleOverwriteDropsEarlierMeals` proves the tables then disagree.
- `MacroLogger` (`macro_logger.dfy`): the voice logger as a `VoiceLogger` class. Its fields are the component's state and refs. Each browser callback (`ondataavailable`, `onstop`, the FileReader's `onload`, the result of `getUserMedia`) is a method that takes the callback's input as a parameter. The model follows the code as written:
  - `processAudio` clears `isProcessing` in `finally` straight after registering `onload`, so the flag is false in every state between events. The "disabled while processing" conditions therefore never disable anything (`NothingDisabledBetweenEvents`).
  - A response that arrives after Clear still fills in the results, because there is no stale-response check (`LateResponseScenario`).
- `MacroChart` (`macro_chart.dfy`): the chart data shaping, as pure functions.

## Model

| member | source | states |
|---|---|---|
| MacroStore.Upsert | backend/app.py:204-239 | the day's row gains the meal's four totals and one meal, or a row with exactly those totals and meal count 1 appears; the key set grows by that date only; every other date's row is unchanged |
| MacroStore.Database.UpdateDailyMacroStats | backend/app.py:204-239 | the read-then-update-or-insert on the stats table leaves it equal to `Upsert` of the old table |
| MacroStore.UpsertKeepsConsistent | backend/app.py:504-528 | appending an entry and upserting its totals on its date keeps every day's row equal to the sum and count of that day's entries |
| MacroStore.Database.constructor | backend/app.py:26-83 | on a fresh database file, `init_db` creates the tables empty, and empty tables agree with each other (an existing file keeps its rows, since the tables are created only if they do not exist) |
| MacroStore.Database.InsertMacroEntry | backend/app.py:506-517 | exactly one row is appended, and its id is the new row count (`lastrowid`) |
| MacroStore.SpeechVerdict | backend/app.py:488-501 | the request is accepted only with non-empty audio, a transcription not starting with "Error" and an analysis without `error`; a failure carries the transcription or the analysis error as its message |
| MacroStore.FailedTranscriptionRejected | backend/app.py:139-141 | the transcriber's fallback message always starts with "Error", so it is rejected with that message |
| MacroStore.FailedAnalysisRejected | backend/app.py:193-202 | the parser's fallback always carries `error`, so an accepted transcription with a failed analysis is rejected with "Error parsing food data: ..." |
| MacroStore.TranscriptionFailure | backend/app.py:139-141 | the transcriber's fallback starts with "Error" and ends with the exception's text |
| MacroStore.AnalysisFailure | backend/app.py:193-202 | the parser's fallback carries `error` "Error parsing food data: " plus the exception's text, no foods and zero totals |
| MacroStore.Database.ProcessMacroSpeech | backend/app.py:480-539 | 400 exactly when audio is missing or empty; 500 with the failure's message whenever the chain fails; 200 exactly when the chain accepts; on any non-200 neither table changes; on 200 one `voice_input` entry dated today is appended, today's stats are upserted with its totals, and the body carries the new id; agreement between the tables is preserved |
| MacroStore.StatsLimit | backend/app.py:574 | the row limit is the `days` argument, or 7 when it is absent or not an integer |
| MacroStore.GetDailyMacroStats | backend/app.py:570-599 | the rows number min(days, rows in table), with days 7 by default and a negative LIMIT meaning no limit; each row is the table's row for its date; dates are strictly descending |
| DateOrder.Descending | backend/app.py:582 | `ORDER BY entry_date DESC` lists as many dates as the table holds |
| MacroStore.StatsNewestFirst | backend/app.py:578-584 | a date in the table but not returned sorts before every returned date, so the LIMIT keeps the newest days |
| DateOrder.DescendingListsAll | backend/app.py:582 | the descending listing holds each date of the table exactly once, latest first |
| DateOrder.NewestKept | backend/app.py:582-583 | a date left out of the first n of the descending listing sorts before each of them |
| MacroStore.FindEntry | backend/app.py:609-618 | the lookup by id returns a stored entry with that id, or nothing when no entry has it |
| MacroStore.FoodsOrEmpty | backend/app.py:620-624 | `foods` is [] when `parsed_foods` is NULL, empty or not valid JSON, and the decoded list otherwise |
| MacroStore.GetMacroEntry | backend/app.py:601-640 | 404 exactly when no entry has the id; otherwise the detail of a stored entry with that id |
| MacroStore.Detail | backend/app.py:626-637 | the detail response carries the entry's id, input, transcription, totals and date unchanged, with its foods read back through the fallback |
| MacroStore.StoredFoodsReadBack | backend/app.py:620-624 | an entry just stored with `json.dumps(foods)` reads back with the same foods, given that `json.loads` inverts `json.dumps` |
| MacroStore.SampleMeals | backend/app.py:726-753 | the sample generator has three hard-coded meals |
| MacroStore.SampleTotalsMatchFoods | backend/app.py:726-753 | each sample meal's stated totals equal the sum of its foods' macros |
| MacroStore.SampleDayTotal | backend/app.py:779-798 | the accumulator loop over the three sample meals sums to 1310 kcal, 108 g protein, 88 g carbs and 61 g fat |
| MacroStore.SampleEntries | backend/app.py:784-792 | one `sample_data` row per sample meal |
| MacroStore.SampleEntriesDayTotal | backend/app.py:778-792 | all sample rows are dated today: they add their meals' totals to today and nothing to any other date |
| MacroStore.SampleEntriesMealCount | backend/app.py:778-792 | all sample rows are dated today: they add one meal each to today and none to any other date |
| MacroStore.ReplacingFreshDayConsistent | backend/app.py:799-804 | replacing the row of a day that had none with the appended meals' sum and count keeps the tables in agreement |
| MacroStore.SampleOnFreshDayConsistent | backend/app.py:778-804 | on a day without a stats row the sample generator leaves the tables in agreement |
| MacroStore.SampleOverwriteDropsEarlierMeals | backend/app.py:799-804 | on a day that already has a row, today's meal count in the entries exceeds 3 and the overwritten table disagrees with the entries |
| MacroStore.Database.InsertSampleMeals | backend/app.py:779-797 | one `sample_data` row per meal is appended, dated today with consecutive ids, and the four running sums end as the sum of all the meals' totals |
| MacroStore.Database.CreateSampleMedicalRecord | backend/app.py:642-817 | one record named after the request's `filename` (default "sample_document.pdf") and one "prescription_"-prefixed prescription holding the chosen samples; the three sample entries are appended; today's row is replaced by the sum of the sample meals' totals with meal count 3 whatever was there; the response carries both new ids and 3 |
| MacroLogger.KeptChunks | frontend/src/components/MacroLogger.jsx:52-56 | the buffer after a run of events holds no more chunks than arrived, each non-empty and one of the arrivals |
| MacroLogger.KeptChunksLoseNoAudio | frontend/src/components/MacroLogger.jsx:52-59 | dropping empty payloads loses no bytes: the blob is every arrival's bytes in arrival order |
| MacroLogger.Flatten | frontend/src/components/MacroLogger.jsx:59 | `new Blob(chunks)` is empty exactly when every chunk is empty |
| MacroLogger.MediaStream.StopTracks | frontend/src/components/MacroLogger.jsx:61 | after the `forEach` every track of the stream is stopped |
| MacroLogger.ControlsFor | frontend/src/components/MacroLogger.jsx:125-213 | without permission only the permission button; Start shown exactly when not recording and disabled exactly while processing; Stop shown exactly while recording and never disabled; Process and Clear shown exactly with audio and not recording, disabled exactly while processing |
| MacroLogger.ControlsExclusive | frontend/src/components/MacroLogger.jsx:168-190 | Start and Stop are never offered together, and Process is never offered beside Stop |
| MacroLogger.VoiceLogger.constructor | frontend/src/components/MacroLogger.jsx:8-17 | the initial state: not recording, not processing, no audio, empty texts, no permission, empty buffer |
| MacroLogger.VoiceLogger.CheckMicrophonePermission | frontend/src/components/MacroLogger.jsx:23-32 | a granted probe sets the permission and stops every probe track; a refused one clears it and sets the denial message |
| MacroLogger.VoiceLogger.StartRecording | frontend/src/components/MacroLogger.jsx:34-69 | the error is cleared; an acquisition or recorder failure sets "Failed to start recording: ..." and leaves recorder and buffer; otherwise the recorder is set and the buffer emptied, then recording starts or the start failure is reported |
| MacroLogger.VoiceLogger.OnDataAvailable | frontend/src/components/MacroLogger.jsx:52-56 | a non-empty chunk is appended at the end; an empty one leaves the buffer unchanged |
| MacroLogger.VoiceLogger.StopRecording | frontend/src/components/MacroLogger.jsx:71-76 | nothing changes unless a recorder exists and the flag says recording; otherwise that recorder is stopped, its `onstop` becomes due, and the component is not recording |
| MacroLogger.VoiceLogger.OnStop | frontend/src/components/MacroLogger.jsx:58-62 | the `onstop` of a stopped recorder: the blob is the chunks now in the buffer ref, concatenated in order, with the opus mime type, and the tracks of the stream that handler captured are all stopped, whichever recorder is current |
| MacroLogger.VoiceLogger.ProcessAudio | frontend/src/components/MacroLogger.jsx:78-116 | without a blob nothing changes; otherwise the error is cleared and one read of the blob is pending, or a synchronous failure is reported as "Failed to process audio: ..."; the processing flag is false again on return |
| MacroLogger.VoiceLogger.OnLoad | frontend/src/components/MacroLogger.jsx:89-110 | a delivered response overwrites the transcription and the analysis; a failed request changes nothing, since its throw escapes the handler |
| MacroLogger.VoiceLogger.ClearRecording | frontend/src/components/MacroLogger.jsx:118-123 | audio, transcription, analysis and error are reset, and nothing else changes |
| MacroLogger.ReceiveChunks | frontend/src/components/MacroLogger.jsx:52-56 | a run of `dataavailable` events on an empty buffer leaves exactly the run's non-empty chunks, in arrival order |
| MacroLogger.RecordSession | frontend/src/components/MacroLogger.jsx:34-62 | start, a run of chunks, stop and `onstop`: the blob holds every arrival's bytes in arrival order, and the microphone is released |
| MacroLogger.NothingDisabledBetweenEvents | frontend/src/components/MacroLogger.jsx:173-208 | in every reachable state Start, Process and Clear are never rendered disabled |
| MacroChart.PieChartData | frontend/src/components/MacroChart.jsx:50-73 | empty exactly when stats are absent or protein + carbs + fat is 0; otherwise Protein, Carbs, Fat in that order with their grams, and each percentage times the total equals the grams times 100 |
| MacroChart.MacroGrams | frontend/src/components/MacroChart.jsx:53 | with no negative amounts, the grams total is 0 exactly when protein, carbs and fat are all 0 |
| MacroChart.PercentagesSumTo100 | frontend/src/components/MacroChart.jsx:53-70 | the three percentages add up to 100 |
| MacroChart.PercentagesWithinRange | frontend/src/components/MacroChart.jsx:53-70 | with no negative grams each percentage lies between 0 and 100 |
| MacroChart.PieColor | frontend/src/components/MacroChart.jsx:252 | the cell colour `index % 3` is always one of the three palette colours |
| MacroChart.LegendMatchesCells | frontend/src/components/MacroChart.jsx:260-265 | the legend's unreduced `PIE_COLORS[index]` is in range and equals the cell colour of the same slice |
| MacroChart.TodayStats | frontend/src/components/MacroChart.jsx:44 | nothing exactly when no row has today's date; otherwise the first row with today's date |
| MacroChart.FirstMatchIsOnlyMatch | frontend/src/components/MacroChart.jsx:44 | a row that is the only one dated today is the one found |
| MacroChart.Reverse | frontend/src/components/MacroChart.jsx:26 | the reversed list has the same length and element i is element n-1-i of the original |
| MacroChart.TodayFoundInFetchedStats | frontend/src/components/MacroChart.jsx:23-44 | over the 14 newest stats rows the service returns, reversed, the lookup finds the table's row for today whenever today has a row and no later date does |
| MacroChart.RecentEntries | frontend/src/components/MacroChart.jsx:332 | at most five entries, all of them when fewer, exactly five otherwise, each at its original position |
| MacroChart.Preview | frontend/src/components/MacroChart.jsx:336-339 | text of at most 50 characters is shown unchanged; longer text as its first 50 characters followed by "..." |
| MacroChart.PreviewBoundedAndStable | frontend/src/components/MacroChart.jsx:336-339 | a preview has at most 53 characters, starts with the text's first (up to) 50 characters, and shortening it again changes nothing |
| MacroChart.RecentPreviews | frontend/src/components/MacroChart.jsx:332-339 | one preview per recent entry, in the entries' order |

## Left out

- The Gemini calls (transcription, food analysis, image processing, summaries) are external services. Their results are parameters of the speech endpoint: any transcription string and any analysis record, with or without an `error` key.
- Extracting JSON from the model's reply (regex plus `json.loads`) is not modelled. `json.dumps` and `json.loads` of the foods are function parameters, and only their round trip is assumed where it is stated.
- SQLite is not modelled: connections, SQL text, `created_at`/`updated_at` timestamps, and database errors that end in a 500. A request body that is not JSON, and analysis records without the total keys (a `KeyError`), also end in a 500 and are not modelled.
- The unused `timestamp` field of the speech request and the `fileType` field of the sample request are not modelled.
- `MacroStore.Database.UpdateDailyMacroStats`: requests are modelled one at a time, each as one atomic step. The source runs under Werkzeug's threaded development server (`app.run(..., debug=True)`), and `update_daily_macro_stats` reads the day's row and writes it later on its own connection. Two voice requests for the same day can therefore interleave between the read and the write, and a double click on Process sends two, since that button is never disabled (`NothingDisabledBetweenEvents`). Two UPDATEs computed from the same read lose one meal's totals and count. Two INSERTs on a day with no row break the UNIQUE constraint on `entry_date`; the function catches and prints that error, so the second entry is stored but never counted. In both cases the tables then disagree.
- `MacroStore.Database.ProcessMacroSpeech`: the failure path of `update_daily_macro_stats` is left out. That function catches and prints its own exceptions. One is raised when the analysis gives a total that is not a number (say `null`) and today already has a row. The entry stays stored, the stats row is not updated, and the endpoint still answers 200, so the tables then disagree. The model assumes numeric totals and always applies the upsert.
- `MacroStore.Database.CreateSampleMedicalRecord`: the texts of the sample medical records and prescriptions are represented by the index of the chosen sample. `random.choice` is the index parameter. The model's `records` and `prescriptions` sequences hold only the sample generator's rows, so the returned `medical_record_id` and `prescription_id` equal the source's only when no other endpoint has written those tables. After one upload, for example, the source returns `medical_record_id` 2 while the model returns 1.
- `MacroStore.Database.constructor`: models a fresh database file only. `init_db` creates the tables only if they do not exist, so after a restart the rows already on disk remain.
- `date.today()` on the server and `new Date().toISOString()` (a UTC date) on the client are both parameters. `MacroChart.TodayFoundInFetchedStats` assumes the two agree, which they do not around midnight away from UTC.
- `get_macro_entries`, the medical-record and prescription listing endpoints, and `frontend/src/App.jsx` are not modelled. They are listing and routing glue outside the macro core.
- `upload_medical_record` and `analyze_prescription` are not modelled, although they write rows: they insert into `medical_records` and `prescriptions` after OCR and AI calls. They share those tables' AUTOINCREMENT ids with the sample generator (see the `MacroStore.Database.CreateSampleMedicalRecord` line above).
- `MacroChart.Preview`: lengths are counted in Unicode characters, while JavaScript's `length` and `substring(0, 50)` count UTF-16 code units. For text with characters outside the Basic Multilingual Plane, such as emoji, the model keeps more characters than the source. Thirty emoji are 60 code units, so the source shows 25 and "..." while the model shows all 30. The model also never splits a surrogate pair, which the source's cut can.
- The recharts drawing, JSX layout, `toFixed(1)`, `Math.round` and the date formatting are presentation. Percentages are exact reals before rounding.
- MediaRecorder, getUserMedia, FileReader and fetch are browser APIs. Their results are parameters of the callback methods, and the event-loop timing is not modelled. Any interleaving of calls that satisfies the preconditions is allowed. Each `onstop` and each `onload` is due only after its `stop()` or `readAsDataURL`, and it acts on what its closure captured (`LateStopScenario`, `LateResponseScenario`).
- `MacroLogger.VoiceLogger.ProcessAudio`: the `catch` of `processAudio` can only see a synchronous throw from the FileReader. That throw is modelled as the `readFailure` parameter.
- The errors thrown inside `onload` are unhandled promise rejections. The model records that they change no state.
