# Bank batch pipeline, modelled in Dafny

This project models the core of the bank-batch-pipeline repository. That repository is a set of Python batch processors that read bank transaction CSV files in chunks, normalise their dates and amounts, and insert the rows into PostgreSQL. Around the processors sit validators, an error handler with retries, a metrics monitor, a job scheduler, and the "validated" processors, which validate generated records before saving them.

The model covers:

- **Dates.** How each processor turns a date cell into a date:
  - `strptime` matching with its ordered regular-expression alternatives and the "unconverted data remains" rule;
  - the ordered format lists with a year window per column, the century shift of two-digit years, and the format-free fallback.
- **Amounts.** Python's `float()` on text, and the comma and space cleaning in front of it.
- **Storing rows.** The per-row classification into an INSERT or a counted skip, chunk storage under the two commit policies, and the chunk loops with a record ceiling. The ceiling is checked before or after each chunk, on rows seen or on rows stored.
- **Validation.** The two validator classes, `DataValidator` and `AdvancedDataValidator`, and their inline copies, with their batch counts and reports.
- **Error handling.** `ErrorHandler`'s per-type counters, its classification, and its exponential-backoff retry loop.
- **Metrics.** The `BatchMetrics` derived rates, the `PipelineMonitor` state machine and its performance totals, and the `AlertManager` thresholds.
- **Scheduling.** `BatchScheduler.run_batch_job`'s statistics and its bounded history.
- **Final-working processors.** The three `FinalBatchProcessor` chunk loops, with their 10000-record slices, the every-third-chunk backup and the monitor feed.
- **Validated processors.** The three `ValidatedBatchProcessor` variants: the simulated fallback count, result coercion, 1000-record slicing, save-method probing, and the result dictionaries.

Code that updates state in place is modelled as Dafny classes with `modifies` frames, and loops as `while` loops with invariants, each proved against a function that states what it computes. This covers the database connection, the object store, the error handler, the monitor, the scheduler, the validator's error log and the chunk and row loops. Pure helpers are functions, and the properties the code promises are lemmas about those functions.

Python's `None` and any exception that escapes a step are modelled as `Option` or result datatypes. The database, the object store, the clock, the random generators and the subprocess are parameters of the model.

## Model

| member | source | states |
|---|---|---|
| `Strings.LStrip` | src/enhanced_processor.py:90 | str.lstrip: the longest suffix with no leading whitespace; only whitespace was dropped |
| `Strings.RStrip` | src/enhanced_processor.py:90 | str.rstrip: the longest prefix with no trailing whitespace; only whitespace was dropped |
| `Strings.StripUnchanged` | src/enhanced_processor.py:90 | text with no whitespace at either end is its own strip |
| `Strings.Remove` | src/enhanced_processor.py:139 | `replace(c, '')` for a set of characters: no removed character is left and nothing is added |
| `Strings.RemoveAppend` | src/enhanced_processor.py:139 | removal distributes over concatenation |
| `Strings.RemoveIdempotent` | src/enhanced_processor.py:139 | removing the separators a second time changes nothing |
| `Strings.RemoveNothing` | src/enhanced_processor.py:139 | text without separators is unchanged by their removal |
| `Strings.NatToString` | src/advanced_pipeline.py:28 | str(n): decimal digits denoting n, no leading zero, one digit exactly below 10 |
| `Strings.PadZeros` | src/advanced_pipeline.py:28 | `%0<w>d`: digits denoting n, exactly w of them when n fits |
| `Strings.TwoDigitString` | src/enhanced_processor.py:107 | a two-digit number is written tens digit then units digit, with or without zero padding |
| `PyFloat.DigitsFloatValue` | src/enhanced_processor.py:140 | float() reads a bare digit string as the integer it spells |
| `PyFloat.ParseNatToString` | src/enhanced_processor.py:140 | float(str(n)) == n for every natural number |
| `PyFloat.ParseNegativeDigits` | src/enhanced_processor.py:140 | float() of a minus sign and digits is minus their value |
| `PyFloat.ParseStripped` | src/enhanced_processor.py:140 | float() ignores surrounding whitespace: stripped text parses as it is |
| `PyFloat.CommaRejected` | src/correct_fixed_processor.py:81-82 | float() of text holding a comma raises ValueError: it removes no separator |
| `Cells.AbsentIsNaOrFalsy` | src/enhanced_processor.py:87 | a cell that `pd.isna(x) or x == ""` rejects is also rejected by `pd.isna(x) or not x` |
| `Cells.FloatOf` | src/minimal_processor.py:75-76 | float() of a cell: a number is itself, NaN stays NaN (not an error), text goes through the string parser |
| `Calendar.DaysInMonth` | src/enhanced_processor.py:107 | 28 to 31 days; 29 exactly for February of a Gregorian leap year |
| `Calendar.MinusCenturyValid` | src/robust_date_processor.py:32-34 | `replace(year=year-100)` on a valid date of 2021..2068 gives a valid date of 1921..1968 inside the Timestamp range |
| `Calendar.PlusCenturyValid` | src/robust_date_processor.py:32-34 | every valid date of 1921..1968 is such a shift's result, of a valid date of 2021..2068 |
| `Calendar.LeapDayShift` | src/robust_date_processor.py:32-34 | 2024-02-29 becomes the valid 1924-02-29 |
| `Calendar.OrdinalOrder` | src/data_validator.py:40 | chronological order of valid dates is the order of their day counts (`date.toordinal`), both directions |
| `Calendar.OrdinalBefore` | src/data_validator.py:40 | a valid date strictly before another has the smaller day count |
| `Calendar.YearLength` | src/data_validator.py:40 | a year has 366 days exactly when it is a Gregorian leap year, else 365 |
| `Strptime.Year2Value` | src/enhanced_processor.py:107 | `%y`: 00..68 mean 2000..2068 and 69..99 mean 1969..1999, the POSIX strptime rule; the last two digits are kept |
| `Strptime.Alternatives` | src/enhanced_processor.py:107 | each directive's candidate captures are in range (day 1..31, month 1..12) and consume at least one character |
| `Strptime.Match` | src/enhanced_processor.py:107 | the backtracking matcher consumes no more than the text |
| `Strptime.MatchInRange` | src/enhanced_processor.py:107 | every field a successful match captures is in its directive's range |
| `Strptime.Parse` | src/enhanced_processor.py:107 | the `strptime` matching that `pd.to_datetime(s, format=fmt)` applies to text that is neither blank nor a NaT spelling (those give NaT before any matching, see `DatePolicy.NaTText`): a result is a valid Gregorian date within the Timestamp bounds; a `%y`-only format gives a year of 1969..2068 |
| `Strptime.ParseRender` | src/enhanced_processor.py:107 | round trip: parsing a date rendered in a separated format gives back that date |
| `Strptime.NamedFormats` | src/enhanced_processor.py:96-103 | every format the processors name round-trips |
| `Strptime.ParseYearFromLastTwo` | src/enhanced_processor.py:107 | a format ending in `%y` takes the year from the last two characters of the text |
| `Strptime.ParseNeedsLiteral` | src/enhanced_processor.py:107 | a format with a literal separator parses no text lacking it |
| `Strptime.RenderCentury` | src/robust_date_processor.py:32-34 | a two-digit-year rendering cannot tell a date from the same day a century later |
| `Strptime.RenderFive` | src/enhanced_processor.py:90 | a rendered date starts and ends with a digit, so strip() keeps it |
| `DatePolicy.Candidate` | src/robust_date_processor.py:30-36 | one attempt, with the optional century shift of a `/%y` result above 2020: a valid in-range date or a failure |
| `DatePolicy.FirstAccepted` | src/enhanced_processor.py:105-123 | the loop over formats with early return: a result is valid and inside the role's window |
| `DatePolicy.FirstAcceptedAt` | src/enhanced_processor.py:105-123 | the result is the attempt at the first position whose parse the window accepts |
| `DatePolicy.FirstAcceptedNone` | src/enhanced_processor.py:105-123 | no result exactly when no attempt is accepted |
| `DatePolicy.FirstAcceptedSome` | src/enhanced_processor.py:105-123 | a result comes from an accepted attempt none of whose predecessors was accepted |
| `DatePolicy.ShiftNeverFails` | src/robust_date_processor.py:32-34 | for `%m/%d/%y` and `%d/%m/%y` the shifted attempt succeeds exactly when the parse does, and is the parse moved back a century when above 2020 |
| `DatePolicy.ShiftedYearRange` | src/fix_year_processor.py:15-19 | after the shift a two-digit-year result lies in 1921..2020 |
| `DatePolicy.FirstFormatRoundTrip` | src/enhanced_processor.py:105-113 | a date written in the first format comes back when its window takes it |
| `DatePolicy.ShiftOutsideWindow` | src/robust_date_processor.py:32-37 | with a window inside 1969..2020 the shift changes no attempt's outcome |
| `DatePolicy.ShiftNeverRescues` | src/robust_date_processor.py:21-37 | hence the whole loop gives the same result with or without the shift |
| `DatePolicy.ShiftedFirstFormat` | src/robust_date_processor.py:51-67 | a date above 2020 written in a leading `/%y` format comes back a century earlier when the window takes that |
| `DatePolicy.DigitLedNotNaT` | src/enhanced_processor_fixed.py:91 | text that starts with a digit is never blank or a NaT spelling, so pandas matches it against the format instead of returning NaT |
| `DatePolicy.RenderedNotNaTText` | src/enhanced_processor.py:107 | a date written in a format that starts with a directive is never read as NaT |
| `DatePolicy.DayOrNone` | src/enhanced_processor.py:127-130 | a conversion that cannot give NaT yields a date exactly when it has one, and never NaT |
| `DatePolicy.DateOf` | src/enhanced_processor_fixed.py:188-204 | the value a conversion hands to the INSERT has a date exactly for a parsed date |
| `Sink.Connection.Execute` | src/enhanced_processor.py:216-232 | a live connection runs the INSERT exactly when it accepts the row, which then becomes pending; nothing else changes |
| `Sink.Connection.Commit` | src/enhanced_processor.py:242-243 | the pending rows are appended to the committed ones |
| `Sink.Connection.Rollback` | src/enhanced_processor.py:245-246 | the pending rows are discarded, the committed ones kept |
| `Sink.Connection.CreateAggregations` | src/enhanced_processor.py:266-337 | one more aggregation run, committed with whatever was pending |
| `Sink.Connection.Close` | src/enhanced_processor.py:439-441 | the connection is closed and nothing else changes |
| `Sink.ObjectStore.Put` | src/enhanced_processor.py:144-162 | store_raw_data_minio: true when skipped or uploaded, false when the upload raised; an object is added only by an upload |
| `Sink.BatchInserted` | src/database.py:36-77 | insert_transaction_batch's count: 0 or the batch length, positive exactly for a non-empty batch the database takes |
| `Sink.BatchClient.InsertBatch` | src/database.py:36-80 | the count above, and the batch is stored whole or not at all |
| `Sink.BatchClient.Close` | src/database.py:106-110 | the client is closed and stores nothing more |
| `Ingest.Skipped` | src/enhanced_processor.py:181-209 | a skip bumps exactly one counter and never the stored one |
| `Ingest.TallyTotal` | src/enhanced_processor.py:175-239 | each row bumps exactly one counter, so the counters sum to the rows |
| `Ingest.StoredIsInserted` | src/enhanced_processor.py:216-234 | the stored counter counts exactly the INSERTs that went through |
| `Ingest.ProblematicAmongOther` | src/enhanced_processor.py:236-239 | every problematic row is also an other error |
| `Ingest.NothingPlannedNothingStored` | src/enhanced_processor.py:175-239 | rows none of which is planned as an INSERT store nothing |
| `Ingest.NothingSilent` | src/enhanced_processor.py:175-239 | a row loop that counts every skip leaves the silent counter at zero |
| `Ingest.OneMoreRow` | src/enhanced_processor.py:175-239 | the counters and INSERTs after one more row are one step of the loop |
| `Ingest.StoreRows` | src/enhanced_processor.py:175-239 | the row loop: counters equal TallyOf, the pending INSERTs grow by exactly the inserted rows, nothing is committed |
| `Chunks.SumAppend` | src/enhanced_processor.py:419 | the running total of two runs of chunks is the sum of their totals |
| `Chunks.SumMonotone` | src/enhanced_processor.py:419 | running totals only grow |
| `Chunks.Reached` | src/enhanced_processor.py:412-415 | the number of chunks a before-check ceiling lets through is at most the number of chunks |
| `Chunks.ReachedSpec` | src/enhanced_processor.py:412-419 | every processed chunk started below the limit, and the loop stopped at the end or once the total reached the limit |
| `Chunks.ReachedUnique` | src/enhanced_processor.py:412-419 | that characterisation determines the count of chunks |
| `Chunks.ReachedAt` | src/enhanced_processor.py:412-419 | a loop that entered its last chunk below the limit and then stopped processed exactly Reached chunks |
| `Chunks.Overshoot` | src/enhanced_processor.py:412-419 | the total exceeds the limit by less than the last processed chunk |
| `Chunks.ReachedAfter` | src/simple_batch_backup.py:167-173 | the count an after-check ceiling lets through is at most the number of chunks |
| `Chunks.AfterSameAsBefore` | src/simple_batch_backup.py:167-173 | with a positive limit, checking after a chunk processes the same chunks as checking before |
| `Chunks.AfterProcessesFirst` | src/simple_batch_backup.py:167-173 | an after-check always processes the first chunk; a before-check with a limit of zero or less processes none |
| `Chunks.BelowLimitReadsAll` | src/enhanced_processor.py:412-419 | a loop whose counts never total the limit reads every chunk |
| `Chunks.Split` | src/final_working_processor.py:43-44 | fixed-size slicing: every piece holds between 1 and n elements |
| `Chunks.SplitConcat` | src/final_working_processor.py:43-44 | the pieces cover the sequence exactly and in order |
| `Chunks.SplitFull` | src/final_working_processor.py:43-44 | every piece but the last is full |
| `Chunks.Sizes` | src/enhanced_processor.py:418 | the len(chunk) of each chunk |
| `Chunks.RowsRead` | src/enhanced_processor.py:404-419 | a rows-seen ceiling that is a multiple of the chunk size stops after exactly min(rows, limit) rows |
| `ChunkLoops.StoredCounts` | src/robust_date_processor.py:83-121 | the per-chunk stored counts a stored-rows ceiling grows by |
| `ChunkLoops.TotalStoredIsSum` | src/enhanced_processor.py:417-419 | total_stored is the running sum of per-chunk counts, and equals the number of INSERTs that went through |
| `ChunkLoops.StoreCommitIfAny` | src/enhanced_processor.py:164-264 | a dead connection stores 0 and changes nothing; otherwise the row loop, then commit exactly when something was stored, rollback otherwise |
| `ChunkLoops.StoreCommit` | src/correct_fixed_processor.py:68-114 | the row loop followed by an unconditional commit |
| `ChunkLoops.ChunkNames` | src/enhanced_processor.py:349 | the raw file names of chunks 1..k, `bank_transactions_chunk_<n>.csv` |
| `ChunkLoops.UploadAndStore` | src/enhanced_processor.py:343-360 | process_chunk_enhanced: the raw copy's result is ignored, the chunk's count is the store's |
| `ChunkLoops.TestConnections` | src/enhanced_processor.py:362-393 | true exactly when the database answers and the object store, when configured, too |
| `ChunkLoops.UploadNext` | src/enhanced_processor.py:412-419 | one loop iteration: chunk k is copied raw and stored after chunks 0..k-1 |
| `ChunkLoops.CommitAppend` | src/enhanced_processor.py:242-243 | a chunk's committed INSERTs extend what the earlier chunks committed |
| `ChunkLoops.UploadLoop` | src/enhanced_processor.py:412-419 | the rows-seen ceiling before each chunk: Reached chunks processed, their rows seen, their stored counts summed, exactly their INSERTs committed, one raw copy each |
| `ChunkLoops.CommitNext` | src/correct_fixed_processor.py:133-140 | one iteration of a committing loop: chunk k stored and committed after chunks 0..k-1 |
| `ChunkLoops.SeenLoop` | src/correct_fixed_processor.py:133-140 | the rows-seen ceiling before each chunk, one commit per chunk |
| `ChunkLoops.StoredLoop` | src/robust_date_processor.py:83-121 | the rows-stored ceiling before each chunk: the chunks processed are the ones Reached over the stored counts |
| `Counters.BumpSpec` | src/error_handler.py:29-30 | `d[k] = d.get(k, 0) + 1` adds one to its key only and keeps the dict well formed |
| `Counters.BumpManyStep` | src/error_handler.py:79 | n + 1 bumps are n bumps and one more |
| `Counters.BumpManySpec` | src/error_handler.py:79 | n bumps of a key add n to it and nothing to the others |
| `Counters.SumOverChange` | src/error_handler.py:86 | changing one count changes the sum of values by the same amount |
| `Counters.BumpTotal` | src/error_handler.py:29-30 | every bump adds exactly one to `sum(d.values())` |
| `Counters.TotalZero` | src/error_handler.py:86-96 | the total is zero exactly when the dict is empty, and at least its number of keys |
| `Counters.ArgMax` | src/error_handler.py:96 | `max(keys, key=d.get)`: a position among the keys |
| `Counters.ArgMaxSpec` | src/error_handler.py:96 | it is the first position holding the largest count |
| `Counters.MostCommon` | src/error_handler.py:96 | None exactly when the dict is empty |
| `Counters.CountPositive` | src/error_handler.py:105-106 | the number of keys with a positive count is at most the number of keys |
| `Counters.AllPositive` | src/error_handler.py:100-108 | in a well-formed counter every key's count is positive |
| `EnhancedProcessor.SmartDate` | src/enhanced_processor.py:82-130 | smart_date_conversion: absent input gives None before any format is tried; NaT exactly for present text that strips to blank or a NaT spelling, which every format and the fallback turn into NaT; a parsed result that is not the fallback's is a valid date inside the field's window |
| `EnhancedProcessor.RobustNumeric` | src/enhanced_processor.py:132-142 | robust_numeric_conversion: absent input gives None; a number is kept as it is |
| `EnhancedProcessor.FirstChar` | src/enhanced_processor.py:198 | `str(x)[:1]` has one character, none for the empty string |
| `EnhancedProcessor.ChunkAccounting` | src/enhanced_processor.py:175-239 | the four counters of a chunk sum to its rows, no row is skipped without a counter, stored equals the INSERTs that went through, problematic rows are among the other errors |
| `EnhancedProcessor.NoSilentRows` | src/enhanced_processor.py:175-239 | no row of the enhanced loop is skipped without bumping a counter |
| `EnhancedProcessor.NeverSilent` | src/enhanced_processor.py:181-209 | every skip the classification makes is a counted one |
| `EnhancedProcessor.Processed` | src/enhanced_processor.py:412-415 | the chunks of 100000 rows the pipeline processes are at most all of them |
| `EnhancedProcessor.RowsSeen` | src/enhanced_processor.py:404-419 | the rows-seen ceiling of 300000, a multiple of the chunk size, reads exactly min(rows, 300000) rows |
| `EnhancedProcessor.Pipeline` | src/enhanced_processor.py:395-441 | process_enhanced_pipeline: false with nothing touched when the connection test fails; otherwise the rows seen are min(rows, 300000), total_stored sums the processed chunks' counts, exactly their INSERTs are committed, one raw copy per chunk, one aggregation run exactly when something was stored, and the connection is closed |
| `EnhancedProcessor.TransactionDateRoundTrip` | src/enhanced_processor.py:93-113 | a transaction date of 2000..2020 written `m/d/yy` comes back whatever the fallback |
| `EnhancedProcessor.DobRoundTrip` | src/enhanced_processor.py:97-117 | a birth date of 1969..2010 written `d/m/yy` comes back whatever the fallback |
| `EnhancedProcessor.TransactionDateExample` | src/enhanced_processor.py:93-113 | "2/8/16" as a transaction date is 2016-02-08 |
| `EnhancedProcessor.RenderedFeb8` | src/enhanced_processor.py:96 | 2016-02-08 written `%m/%d/%y` is "2/8/16" |
| `EnhancedProcessor.DobExample` | src/enhanced_processor.py:97-117 | "26/11/96" as a birth date is 1996-11-26 |
| `EnhancedProcessor.RenderedNov26` | src/enhanced_processor.py:100 | 1996-11-26 written `%d/%m/%y` is "26/11/96" |
| `EnhancedProcessor.DobWindowUnreachable` | src/enhanced_processor.py:114-130 | a birth date of 1930..1968 written `d/m/yy` never passes the window: the two-digit formats read 2030..2068, so the result is the unchecked fallback's, a date or None |
| `EnhancedProcessor.LateYear2FallsBack` | src/enhanced_processor.py:114-130 | the same for any dash-free format with a two-digit year last |
| `EnhancedProcessor.LateTextFallsBack` | src/enhanced_processor.py:114-130 | stripped dash-free text whose last two digits read past 2010 goes to the birth-date fallback |
| `EnhancedProcessor.DobFormatsMiss` | src/enhanced_processor.py:100-117 | such text passes none of the four birth-date formats |
| `EnhancedProcessor.FallsBack` | src/enhanced_processor.py:125-130 | present text that is not a NaT spelling and that no format accepts gives whatever the fallback returns, with no window check |
| `EnhancedProcessor.LateYear2Rendering` | src/enhanced_processor.py:100 | what a 1930..1968 date looks like written with a two-digit year last |
| `EnhancedProcessor.LateCentury` | src/enhanced_processor.py:107 | a year of 1930..1968 written with two digits reads back a century later, past 2010 |
| `EnhancedProcessor.SlashYear2Misses` | src/enhanced_processor.py:112-117 | a two-digit-year parse past the window's end is never accepted |
| `EnhancedProcessor.DashedMisses` | src/enhanced_processor.py:96-100 | a dashed format does not match text without a dash |
| `EnhancedProcessor.NumericIgnoresSeparators` | src/enhanced_processor.py:138-140 | text spelling a natural number once its commas and spaces are removed converts to that number |
| `EnhancedProcessor.SeparatorsRemoved` | src/enhanced_processor.py:139 | "25,000" without separators is "25000" |
| `EnhancedProcessor.TwentyFiveThousand` | src/enhanced_processor.py:140 | str(25000) is "25000" |
| `EnhancedProcessor.NumericExample` | src/enhanced_processor.py:132-142 | "25,000" converts to 25000.0 |
| `EnhancedProcessor.InsertWhen` | src/enhanced_processor.py:175-234 | a row becomes an INSERT that goes in exactly when every column is there, the transaction date converts to a date (None is a date error; NaT passes the None test and fails at the INSERT), the birth date is not NaT, both numbers convert and both ids are non-blank |
| `EnhancedProcessor.InsertWhenWith` | src/enhanced_processor.py:175-234 | the same for any date and number conversion: the check order is date, numbers, ids, then the INSERT that refuses NaT |
| `EnhancedProcessor.NaTRefusedWith` | src/enhanced_processor.py:181-239 | a NaT in either date is never stored; a NaT transaction date is never a date error; with the other checks passed the row is the failed INSERT, a problematic other error |
| `EnhancedProcessor.NaTRefused` | src/enhanced_processor.py:181-239 | with smart_date_conversion: a date cell holding a NaT spelling or only blanks keeps its row out of the table, and a transaction date of that kind is not counted as a date error |
| `EnhancedProcessor.BlankNaT` | src/enhanced_processor.py:87-90 | a cell of blanks only passes the `== ""` guard but strips to "", which pandas reads as NaT |
| `EnhancedProcessor.SpaceDobNeverStored` | src/enhanced_processor.py:199-239 | a birth date of one space becomes NaT, which skips the 1900-01-01 default and is refused at the INSERT, so the row is not stored |
| `EnhancedProcessor.OptionalFieldsNeverReject` | src/enhanced_processor.py:196-204 | gender, location and time never decide whether the row is inserted, and the birth date decides it only by being NaT |
| `EnhancedProcessor.OptionalFieldsWith` | src/enhanced_processor.py:196-204 | the same for any date and number conversion |
| `EnhancedProcessor.Defaults` | src/enhanced_processor.py:196-204 | an inserted row carries the converted dates, 1900-01-01 for a birth date that gave None (a NaT one never reaches a stored row), and 'U', 'Unknown', '000000' for missing gender, location and time |
| `EnhancedProcessor.DefaultsWith` | src/enhanced_processor.py:196-204 | the same for any date and number conversion |
| `EnhancedProcessorFixed.DayFirstDate` | src/enhanced_processor_fixed.py:74-100 | robust_date_conversion: absent input gives None; NaT exactly for present text that strips to blank or a NaT spelling, which the first format returns without raising; a parsed result that is not the fallback's is a valid in-range date, with no year window |
| `EnhancedProcessorFixed.CandidateRange` | src/enhanced_processor_fixed.py:90-94 | a format parse always lies within the Timestamp bounds |
| `EnhancedProcessorFixed.FirstAmountAt` | src/enhanced_processor_fixed.py:163-168 | the amount is the conversion of the first column that is present and converts |
| `EnhancedProcessorFixed.FirstAmountNone` | src/enhanced_processor_fixed.py:163-168 | there is no amount exactly when no column is both present and convertible |
| `EnhancedProcessorFixed.FindAmount` | src/enhanced_processor_fixed.py:162-168 | the search loop with its break computes FirstAmount over the three amount columns |
| `EnhancedProcessorFixed.FixedChunkAccounting` | src/enhanced_processor_fixed.py:148-211 | every row is counted once in stored or one of the three error counters, none silently, and stored equals the INSERTs that went through |
| `EnhancedProcessorFixed.FixedNeverSilent` | src/enhanced_processor_fixed.py:148-211 | every skip is a counted one |
| `EnhancedProcessorFixed.FixedInsertWhen` | src/enhanced_processor_fixed.py:148-206 | a row becomes an INSERT that goes in exactly when the date columns and balance exist, the transaction date converts to a date (NaT passes the None test and fails at the INSERT), the birth date is not NaT, the balance and some amount convert, and both ids are non-blank |
| `EnhancedProcessorFixed.IdsNeverRaise` | src/enhanced_processor_fixed.py:176-209 | once both dates and the balance are there, only the INSERT raises, and it does exactly for a NaT date in a row that passes every other check: missing ids are an ordinary other error |
| `EnhancedProcessorFixed.FixedNaTRefused` | src/enhanced_processor_fixed.py:148-209 | with robust_date_conversion: a date cell holding a NaT spelling or only blanks keeps its row out of the table, and a transaction date of that kind is not counted as a date error |
| `EnhancedProcessorFixed.FixedInsertedFields` | src/enhanced_processor_fixed.py:175-204 | an inserted row carries the converted transaction date and amount, the birth date as converted or NULL for None (never NaT, which no stored row carries), and 'U', 'Unknown', '000000' for missing optional fields |
| `EnhancedProcessorFixed.FixedPipeline` | src/enhanced_processor_fixed.py:280-319 | false with nothing touched when the connection test fails; otherwise the rows-seen ceiling before each chunk, one commit-if-any chunk and one raw copy per processed chunk, no aggregations, connection closed |
| `EnhancedProcessorFixed.DayFirstRoundTrip` | src/enhanced_processor_fixed.py:82-94 | any date of 1969..2068 written `d/m/yy` comes back, whatever the fallback |
| `EnhancedProcessorFixed.AmbiguousDayFirst` | src/enhanced_processor_fixed.py:82-94 | "2/8/16" is read day first as 2016-08-02 |
| `EnhancedProcessorFixed.RenderedAug2` | src/enhanced_processor_fixed.py:83 | 2016-08-02 written `%d/%m/%y` is "2/8/16" |
| `EnhancedProcessorFixed.OctoberFifteenth` | src/enhanced_processor_fixed.py:83 | "15/10/16" is 2016-10-15 |
| `EnhancedProcessorFixed.RenderedOct15` | src/enhanced_processor_fixed.py:83 | 2016-10-15 written `%d/%m/%y` is "15/10/16" |
| `EnhancedProcessorFixed.MonthFirstLastParse` | src/enhanced_processor_fixed.py:83-94 | "10/15/2016" is missed by the four day-first formats and parsed by `%m/%d/%Y`, the last one |
| `EnhancedProcessorFixed.DayFirstFourMiss` | src/enhanced_processor_fixed.py:83-86 | none of the first four formats accepts that text |
| `EnhancedProcessorFixed.MonthFirstHit` | src/enhanced_processor_fixed.py:87 | `%m/%d/%Y` accepts it as 2016-10-15 |
| `EnhancedProcessorFixed.SlashDayFirstMisses` | src/enhanced_processor_fixed.py:83-84 | under `%d/%m/` its month would be 15, so neither day-first slash format matches |
| `EnhancedProcessorFixed.Render2016` | src/enhanced_processor_fixed.py:87 | 2016 is written "2016" under `%Y` |
| `EnhancedProcessorFixed.RenderedMonthFirst` | src/enhanced_processor_fixed.py:87 | 2016-10-15 written `%m/%d/%Y` is "10/15/2016" |
| `CorrectFixed.OneFormat` | src/correct_fixed_processor.py:24-39 | a single-format conversion: NaN or falsy input gives None; a result is a valid date inside the window |
| `CorrectFixed.CorrectChunkAccounting` | src/correct_fixed_processor.py:68-112 | stored plus the three error counters is the chunk's size, no row skipped silently, stored equals the INSERTs that went through |
| `CorrectFixed.CorrectNeverSilent` | src/correct_fixed_processor.py:68-112 | every skip is a counted one |
| `CorrectFixed.CorrectInsertWhen` | src/correct_fixed_processor.py:68-106 | a row is inserted exactly when every column is there and the date and both numbers convert; an unconvertible date is a date error before anything else is looked at |
| `CorrectFixed.CorrectDefaults` | src/correct_fixed_processor.py:95-103 | an inserted row gets 1900-01-01 for a birth date that does not convert, and 'U', 'Unknown', '000000' for missing gender, location and time |
| `CorrectFixed.AmountFailureWith` | src/correct_fixed_processor.py:80-85 | a row whose date converts but whose amount does not is a numeric error |
| `CorrectFixed.CommaCell` | src/correct_fixed_processor.py:82 | float() of text holding a comma raises, so the cell does not convert |
| `CorrectFixed.CommaAmountIsNumericError` | src/correct_fixed_processor.py:80-85 | an amount written "25,000" makes its row a numeric error: no separator is removed |
| `CorrectFixed.CorrectProcess` | src/correct_fixed_processor.py:126-148 | a dead connection raises with nothing changed; otherwise the rows-seen ceiling of 300000 before each chunk, one unconditional commit per chunk, the stored counts summed, and a ZeroDivisionError before close for an empty file |
| `CorrectFixed.OneFormatRoundTrip` | src/correct_fixed_processor.py:24-56 | text a format renders, for a date the window admits, converts back to that date |
| `CorrectFixed.TransactionDateRoundTrip` | src/correct_fixed_processor.py:24-39 | any transaction date of 2000..2020 written `m/d/yy` comes back |
| `CorrectFixed.DobRoundTrip` | src/correct_fixed_processor.py:41-56 | any birth date of 1969..2010 written `d/m/yy` comes back |
| `CorrectFixed.TransactionDateExample` | src/correct_fixed_processor.py:31-35 | "2/8/16" is 2016-02-08 |
| `CorrectFixed.DobExamples` | src/correct_fixed_processor.py:48-52 | "10/1/94" is 1994-01-10 and "26/11/96" is 1996-11-26 |
| `CorrectFixed.RenderedJan10` | src/correct_fixed_processor.py:48 | 1994-01-10 written `%d/%m/%y` is "10/1/94" |
| `CorrectFixed.DobLateTwoDigitYears` | src/correct_fixed_processor.py:48-56 | a birth date whose year ends in 11..68, written `d/m/yy`, is read as 2011..2068 and rejected |
| `CorrectFixed.LateDobTextRejected` | src/correct_fixed_processor.py:48-56 | text whose last two digits `%y` reads past 2010 is never a birth date |
| `CorrectFixed.DobFormatMisses` | src/correct_fixed_processor.py:50-51 | the one birth-date format with its window accepts no such text |
| `CorrectFixed.BlankDates` | src/correct_fixed_processor.py:26-27 | empty or NaN input gives None for both columns |
| `RobustDate.ShiftedParse` | src/robust_date_processor.py:13-71 | NaN or falsy input gives None; a result is a valid date inside the column's year window |
| `RobustDate.RobustOnlySilent` | src/robust_date_processor.py:91-118 | every skipped row is a silent `continue`: no error kind is recorded |
| `RobustDate.RobustChunkAccounting` | src/robust_date_processor.py:91-121 | a chunk's stored rows plus its silent skips are all its rows, and the three error counters stay at zero |
| `RobustDate.OnlySilentCounters` | src/robust_date_processor.py:117-118 | a row loop whose skips and failures are all silent never raises an error counter |
| `RobustDate.RobustInsertWhen` | src/robust_date_processor.py:91-115 | a row is inserted exactly when every column is present, the transaction date converts and balance and amount convert; the birth date goes in as NULL when it did not convert |
| `RobustDate.StoredCeilingMain` | src/robust_date_processor.py:73-128 | a dead database raises at connect with nothing changed; otherwise the chunks of 100000 are stored and committed until, before a chunk, 100000 rows have been stored, the total is the sum over the chunks read, and the connection is closed; src/fix_year_processor.py:23-78 runs the same loop with its own conversions |
| `RobustDate.TransactionShiftIrrelevant` | src/robust_date_processor.py:28-37 | for the transaction column the century shift changes no outcome: the 2000..2020 window already rejects what it would move |
| `RobustDate.TransactionDateRoundTrip` | src/robust_date_processor.py:13-41 | any transaction date of 2000..2020 written `m/d/yy` comes back |
| `RobustDate.DobRoundTrip` | src/robust_date_processor.py:43-71 | any birth date of 1969..2010 written `d/m/yy` comes back |
| `RobustDate.DobShiftedRoundTrip` | src/robust_date_processor.py:58-67 | text that `%d/%m/%y` reads as 2021..2068 gives the day a century earlier: birth dates of 1921..1968 written `d/m/yy` come back |
| `RobustDate.DobShiftExample` | src/robust_date_processor.py:58-67 | "15/10/63" is 1963-10-15 |
| `RobustDate.RenderedOct15In63` | src/robust_date_processor.py:52 | 2063-10-15 written `%d/%m/%y` is "15/10/63" |
| `RobustDate.BlankDates` | src/robust_date_processor.py:15-16 | empty or NaN input gives None for both columns |
| `RobustDate.FewStoredReadsAll` | src/robust_date_processor.py:83-86 | the ceiling counts stored rows: when fewer than 100000 are stored the whole file is read |
| `FixYear.FixTwoDigitYear` | src/fix_year_processor.py:12-21 | NaT exactly for NaN, empty text and pandas' NaT spellings, since nothing guards the parse; a date result is a valid date pandas can hold, and with a two-digit-year format it lies in 1921..2020 |
| `FixYear.FixInsertWhen` | src/fix_year_processor.py:41-68 | a row is inserted exactly when every column is there, the transaction date converts to a date (not NaT), the birth date is not NaT and both numbers convert; an unparsed birth date goes in as NULL |
| `FixYear.BlankDobNeverStored` | src/fix_year_processor.py:45-68 | a blank or NaN birth date becomes NaT, which reaches the INSERT and is refused, so the row is skipped rather than stored with NULL |
| `FixYear.FixOnlySilent` | src/fix_year_processor.py:47-68 | every skipped row is skipped by `continue`, without a counter |
| `FixYear.FixIsShiftedCandidate` | src/fix_year_processor.py:12-21 | for the two formats used, a NaT spelling gives NaT; any other text converts as the shifted parse of the text, and fails exactly when the parse does |
| `FixYear.FixedYearRange` | src/fix_year_processor.py:15-19 | without any window the year still lies in 1921..2020 |
| `FixYear.TwoDigitYearFormats` | src/fix_year_processor.py:44-45 | both formats main uses have a two-digit year and no four-digit one |
| `FixYear.FixRoundTrip` | src/fix_year_processor.py:12-21 | every date of 1921..2020 written with either two-digit-year format comes back |
| `FixYear.FixEarlyRoundTrip` | src/fix_year_processor.py:16-18 | 1921..1968: the text is that of the date a century later, which the shift moves back |
| `FixYear.FixExamples` | src/fix_year_processor.py:44-45 | "2/8/16" is 2016-02-08 and "15/10/63" is 1963-10-15 |
| `FixYear.FixBlank` | src/fix_year_processor.py:14-21 | empty text and NaN give NaT, neither a date nor None |
| `FixYear.RenderedNotNaT` | src/fix_year_processor.py:15 | a date written in a format that starts with a directive begins with a digit, so it is never read as NaT |
| `FixYear.EmptyNoParse` | src/fix_year_processor.py:15 | no format matches the empty string |
| `Minimal.ConvertDateSmart` | src/minimal_processor.py:21-40 | NaN or falsy input gives None; a result is a valid date of 2000..2020 |
| `Minimal.MinimalInsertWhen` | src/minimal_processor.py:64-102 | a row is inserted exactly when its columns exist, its transaction date converts and both numbers convert; every skip is silent; gender, location and time default to 'U', 'Unknown' and '000000' when NaN |
| `Minimal.MinimalChunkAccounting` | src/minimal_processor.py:63-106 | every row of a chunk is stored or silently skipped and the error counters stay at zero |
| `Minimal.MinimalRun` | src/minimal_processor.py:42-113 | a dead database raises at connect with nothing changed; otherwise chunks of 100000 are stored and committed while fewer than 300000 rows were seen, the rows processed are the file's rows up to 300000, and the connection is closed |
| `Minimal.SmartRoundTrip` | src/minimal_processor.py:21-40 | any date of 2000..2020 written `m/d/yy` comes back |
| `Minimal.SmartOfText` | src/minimal_processor.py:26-40 | on stripped, non-empty text the conversion is the first of the three formats whose year lies in 2000..2020 |
| `Minimal.SmartExample` | src/minimal_processor.py:29-36 | "2/8/16" is 2016-02-08 |
| `Minimal.TwentiethCenturyDobLost` | src/minimal_processor.py:68 | the 2000..2020 window applies to birth dates too: one of 1969..1999 written `d/m/yy` never converts and goes in as NULL |
| `Minimal.DobExampleLost` | src/minimal_processor.py:68 | "26/11/96" gives None |
| `Minimal.EarlyTextMisses` | src/minimal_processor.py:29-40 | text without a dash whose two-digit year reads before 2000 converts with none of the formats |
| `Minimal.SmartFormatsMiss` | src/minimal_processor.py:31-38 | the same, stated on the format loop |
| `Minimal.SlashYear2Outside` | src/minimal_processor.py:35 | a two-digit-year format reads the year from the last two characters, so a year outside the window is never accepted |
| `Minimal.SmartBlank` | src/minimal_processor.py:23-24 | empty text and NaN give None |
| `SimpleBatchBackup.ColumnDate` | src/simple_batch_backup.py:72 | a converted cell is a valid date of 1969..2068 |
| `SimpleBatchBackup.ConvertColumn` | src/simple_batch_backup.py:72 | a converted column has one date per row |
| `SimpleBatchBackup.ConvertColumnSpec` | src/simple_batch_backup.py:72 | the column converts exactly when every row has it and every cell converts, and then it is the cell-by-cell conversion |
| `SimpleBatchBackup.ExecuteAllSpec` | src/simple_batch_backup.py:74-85 | the INSERT loop goes through exactly when every row has its columns and every INSERT is accepted, and then it holds each row's parameters in order |
| `SimpleBatchBackup.AllOrNothing` | src/simple_batch_backup.py:66-94 | a chunk is committed exactly when every row has every column, every transaction date converts and every INSERT is accepted, and then all of its rows are committed |
| `SimpleBatchBackup.OneBadDateFailsChunk` | src/simple_batch_backup.py:72 | one transaction date that does not convert fails the whole chunk |
| `SimpleBatchBackup.ExecutePrefixFails` | src/simple_batch_backup.py:74-85 | a failure at some row is a failure of the whole loop |
| `SimpleBatchBackup.StoreProcessedData` | src/simple_batch_backup.py:66-94 | returns whether the chunk was committed; a commit appends all its rows, a failure rolls back what was inserted and leaves the committed rows as they were |
| `SimpleBatchBackup.RawNames` | src/simple_batch_backup.py:52 | one object name per chunk, numbered from 1 |
| `SimpleBatchBackup.Succeeded` | src/simple_batch_backup.py:164 | never more chunks committed than were read |
| `SimpleBatchBackup.CopyNext` | src/simple_batch_backup.py:46-64 | the raw copy of the next chunk lands in the bucket when the store answers; a failure is only reported |
| `SimpleBatchBackup.StoreNext` | src/simple_batch_backup.py:164-165 | one more chunk: committed rows, commits and rollbacks move on by that chunk's outcome |
| `SimpleBatchBackup.BackupLoop` | src/simple_batch_backup.py:156-173 | chunks are copied and stored until, after a chunk, 300000 rows have been read; every chunk read counts whether or not it was stored; each chunk is one commit or one rollback |
| `SimpleBatchBackup.BackupPipeline` | src/simple_batch_backup.py:145-200 | the loop, then one aggregation pass (one more commit), and the connection closed |
| `SimpleBatchBackup.BackupRowsRead` | src/simple_batch_backup.py:167-173 | a non-empty file has at least one chunk attempted, and the rows counted are the file's rows up to 300000 |
| `ErrorHandling.StrategyOf` | src/error_handler.py:44-63 | exactly the four transient types retry, exactly the two data types continue with None, exactly the two critical types stop, and every other type takes the default |
| `ErrorHandling.Pow2` | src/error_handler.py:69 | a wait is at least one second |
| `ErrorHandling.Backoff` | src/error_handler.py:67-71 | the k-th wait is 2^k seconds: 1, 2, 4, … |
| `ErrorHandling.Failures` | src/error_handler.py:67-79 | the number of calls before the first one that returns: every one before it raised, the one after it returned, never more than the attempts allowed |
| `ErrorHandling.FailuresUnique` | src/error_handler.py:67-79 | that number is fixed by the calls' outcomes |
| `ErrorHandling.FailuresAt` | src/error_handler.py:73-75 | a first success at attempt k < n makes k the failure count |
| `ErrorHandling.Attempts` | src/error_handler.py:67 | never more calls than max_retries |
| `ErrorHandling.RetryLoop` | src/error_handler.py:65-82 | returns the first successful call's result, or None after max_retries failures; one wait of 2^k before every call made; one retry count per failed call |
| `ErrorHandling.ErrorHandler.constructor` | src/error_handler.py:9-13 | no errors, no error types, no retry attempts |
| `ErrorHandling.ErrorHandler.RetryOperation` | src/error_handler.py:65-82 | the retry loop applied to the handler: its result, its waits and its retry counts recorded, the error count and types untouched |
| `ErrorHandling.ErrorHandler.CountError` | src/error_handler.py:29-30 | the error count goes up by one and the type's counter by one, nothing else changes |
| `ErrorHandling.ErrorHandler.HandleError` | src/error_handler.py:27-63 | the error is counted first; a transient error with an operation returns what the retry loop returns, without one True; a data error returns None; a critical one raises RuntimeError; any other returns True; only the retry changes the waits and retry counts |
| `ErrorHandling.SuccessRateAlwaysOne` | src/error_handler.py:100-108 | only failed calls create a retry key, so every stored count is at least 1 and the success rate is always 1.0 |
| `ErrorHandling.ReportFacts` | src/error_handler.py:84-98 | total_errors is the sum of the type counts, unique_error_types the number of distinct types, most_common_error None exactly when no error was handled and otherwise a type with the largest count, success_rate 1.0 |
| `ErrorHandling.DistinctKeys` | src/error_handler.py:91 | the number of keys is the number of distinct types seen |
| `ErrorHandling.TwoFailuresThenSuccess` | test_error_handler.py:25-40 | an operation that raises twice and then returns is retried twice, after waits of 1, 2 and 4 seconds, and its value is returned |
| `ErrorHandling.AlwaysFails` | src/error_handler.py:81-82 | an operation that always raises is called three times and gives None |
| `ErrorHandling.ThreeTypesOnce` | test_error_handler.py:9-61 | three distinct types once each give three errors, three types, and the first as most common |
| `ErrorHandling.ThreeBumps` | test_error_handler.py:16-50 | the counter after three distinct types holds them in order of first occurrence, each once |
| `ErrorHandling.OnceEach` | src/error_handler.py:96 | with ties, max() keeps the first key in insertion order |
| `ErrorHandling.TwoRetries` | test_error_handler.py:35-40 | the two failed calls leave two retry attempts on one type |
| `ErrorHandling.NamedStrategies` | test_error_handler.py:16-50 | 'data_validation_error' continues, 'network_error' retries, 'file_not_found' stops |
| `Validator.FailedAmongSpec` | src/data_validator.py:23 | a check is listed exactly when it fails, each once, in the order of the checks |
| `Validator.ValiditySpec` | src/data_validator.py:12-32 | validate_transaction raises exactly when the amount cannot be compared with 0; otherwise the record passes exactly when all five checks hold, and the failed list names exactly the failing checks in dictionary order |
| `Validator.RunSnoc` | src/data_validator.py:49-53 | one more record is one more step of the loop |
| `Validator.RunSpec` | src/data_validator.py:44-60 | the loop raises exactly when some record raises; each invalid record is logged once, with its own failed list; without a raise valid plus invalid is the number of records |
| `Validator.ErrorsForGrow` | src/data_validator.py:24-29 | an entry a prefix could log stays one the longer list could log, and the last record's own entry is one |
| `Validator.BumpAllSpec` | src/data_validator.py:69-70 | bumping a failed list without repeats adds one to each listed check and nothing to the others |
| `Validator.PatternsCount` | src/data_validator.py:66-70 | error_breakdown[c] is the number of logged entries that name c |
| `Validator.ReportSpec` | src/data_validator.py:62-81 | total_checked counts every entry twice, so both rates are one half once there is an entry, and 0 and 1 before; the breakdown counts entries per check; the sample is the first five entries |
| `Validator.Half` | src/data_validator.py:76-77 | n over 2n is one half |
| `Validator.DataValidator.constructor` | src/data_validator.py:8-10 | no validation errors |
| `Validator.DataValidator.ValidateTransaction` | src/data_validator.py:12-32 | the result is validate_transaction's (None where it raises); an invalid record appends one entry naming its failed checks and a valid one appends nothing |
| `Validator.DataValidator.ValidateBatch` | src/data_validator.py:44-60 | the entries the loop logs are appended; None exactly when a record raises; otherwise the counts with total_processed = len(transactions) and the validity rate (0 for an empty batch) |
| `Validator.RaisedStays` | src/data_validator.py:49-50 | once a record has raised, later records change nothing |
| `Validator.MorningHolds` | test_validator.py:15-35 | a timestamp of 2024-01-15 up to noon passes once the clock is past it |
| `Validator.EarlyYearFails` | src/data_validator.py:39-40 | a timestamp whose year is before 2020 fails |
| `Validator.UnreadableFails` | src/data_validator.py:36-42 | text pandas cannot read, such as `invalid_date`, fails |
| `Validator.WholeNanos` | src/data_validator.py:39 | a whole nanosecond count reads back as itself inside int64 above NaT, and as no Timestamp outside |
| `Validator.NumericValid` | src/data_validator.py:34-42 | a number naming a naive moment's instant passes exactly when that moment's year is 2020 or later, it is not after `now`, and a Timestamp can hold it |
| `Validator.NumericTimestamp` | src/data_validator.py:15 | the same for the `valid_timestamp` check of a record whose timestamp is a number |
| `Validator.SameInstantSameVerdict` | src/data_validator.py:34-42 | a naive instant gets the same verdict spelled as text or given as its nanosecond count |
| `Validator.EpochNumberExamples` | src/data_validator.py:34-42 | 1.7e18 is 2023-11-14 22:13:20: it passes on 2024-01-01 and fails a second before the instant it names; 1.5e18 (2017) fails |
| `Validator.FieldChecks` | src/data_validator.py:13-19 | for a record with text account, currency and timestamp and a numeric amount, each of the five checks reads off those fields |
| `Validator.ListedByCheck` | src/data_validator.py:14-23 | a record whose failing checks, taken one by one, are those of a list in dictionary order logs that list |
| `Validator.MorningRecord` | test_validator.py:15-35 | a test record stamped 2024-01-15 up to noon fails exactly the checks its other fields fail |
| `Validator.BadStampRecord` | test_validator.py:37-50 | a test record with an unreadable or pre-2020 timestamp fails the timestamp check and the checks its other fields fail |
| `Validator.Record1` | test_validator.py:15-21 | T001 fails no check |
| `Validator.Record2` | test_validator.py:22-28 | T002 fails no check |
| `Validator.Record3` | test_validator.py:30-36 | T003 fails amount_positive and account_not_empty |
| `Validator.Record4` | test_validator.py:37-43 | T004 fails valid_timestamp, reasonable_amount and valid_currency |
| `Validator.Record5` | test_validator.py:44-50 | T005 fails valid_timestamp |
| `Validator.NamingSnoc` | src/data_validator.py:68-70 | one more entry adds one to each check it names |
| `Validator.TestValidatorRun` | test_validator.py:53-61 | the five records give two valid and three logged, in order, and a validity rate of 0.4 |
| `Validator.TestValidatorReport` | test_validator.py:63-69 | the report counts six checks, three errors and rates of one half; the breakdown names valid_timestamp twice and every other check once; the sample is all three entries |
| `Validator.TestNaming` | test_validator.py:63-69 | the three entries name valid_timestamp twice and every other check once |
| `Validator.NamingThree` | src/data_validator.py:68-70 | three entries name a check once for each entry that lists it |
| `Validator.SortedUnique` | src/data_validator.py:23 | two lists in strict dictionary order with the same checks are the same list |
| `Validator.ListedExactly` | src/data_validator.py:14-23 | a record whose amount compares and whose failing checks are exactly those of a list in dictionary order logs that list |
| `AdvancedValidation.Kept` | src/data_validation.py:49-53 | never more records than were handed in |
| `AdvancedValidation.ValidateBatch` | src/data_validation.py:43-55 | the accepted records in input order, [] for an empty batch |
| `AdvancedValidation.KeptExtend` | src/data_validation.py:50-52 | the witness of the kept positions grows by the last record exactly when it is accepted |
| `AdvancedValidation.KeptSpec` | src/data_validation.py:43-55 | the result keeps exactly the accepted records, each once, in input order |
| `AdvancedValidation.GenerateValidationReport` | src/data_validation.py:57-78 | the report over the records in order |
| `AdvancedValidation.ReportCounts` | src/data_validation.py:59-76 | total_transactions is the number of records, valid plus invalid is the total, one error entry per invalid record, and valid is the number validate_batch keeps |
| `AdvancedValidation.ReportSnoc` | src/data_validation.py:66-76 | one more record adds one error entry, with its index, exactly when it fails |
| `AdvancedValidation.ReportIndices` | src/data_validation.py:72-76 | each entry carries its record's index and that record, which failed, and the indices strictly increase |
| `AdvancedValidation.ReportListsFailures` | src/data_validation.py:66-76 | an index is listed exactly when its record fails |
| `AdvancedValidation.HasRequired` | src/data_validation.py:9-18 | a record with the four keys has every required field |
| `AdvancedValidation.MorningAccepted` | src/data_validation.py:12-37 | a positive amount with a `2024-01-15THH:MM:00` timestamp is accepted |
| `AdvancedValidation.NotPositiveRejected` | src/data_validation.py:21-25 | an amount at most zero is refused, whatever the timestamp |
| `AdvancedValidation.NonDateRejected` | src/data_validation.py:31-35 | a timestamp starting with a character that is neither a digit nor `Z` is refused |
| `AdvancedValidation.ReportOfThree` | src/data_validation.py:57-78 | three records of which only the first is accepted give errors at indices 1 and 2 |
| `AdvancedValidation.BuiltInData` | src/data_validation.py:80-120 | main()'s three records: one valid, two invalid, errors at indices 1 (negative amount) and 2 (invalid timestamp) |
| `AdvancedPipeline.ValidateSingle` | src/advanced_pipeline.py:81-90 | raises exactly when the amount cannot be compared; otherwise the verdict is DataValidator's, it holds exactly when no check fails, and the failed names are exactly the checks that do not hold |
| `AdvancedPipeline.ProcessOutcomeSpec` | src/advanced_pipeline.py:91-153 | a record raises exactly when it has no transaction_id or its amount does not compare; it is processed exactly when all five checks hold and one of the three attempts returns a non-empty record, which is then the result |
| `AdvancedPipeline.SummaryOf` | src/advanced_pipeline.py:192-199 | total = successful + failed; the success rate lies in [0, 1], is 0 exactly when nothing succeeded and 1 exactly when something did and nothing failed |
| `AdvancedPipeline.BatchStops` | src/advanced_pipeline.py:154-169 | a run stops exactly when some record raises; otherwise every record lands in exactly one list and every record reached the handler |
| `AdvancedPipeline.BatchMembers` | src/advanced_pipeline.py:160-168 | each failed entry is an input that failed, each processed entry the result of an input that succeeded |
| `AdvancedPipeline.Pipeline.constructor` | src/advanced_pipeline.py:12-16 | a fresh validator with no errors, a fresh error handler with no errors, processed_count 0 |
| `AdvancedPipeline.Pipeline.ProcessSingle` | src/advanced_pipeline.py:91-153 | the outcome of ProcessOutcomeSpec; processed_count grows by one exactly for a processed record; the handler counts one data_validation_error or processing_error, or nothing when the record raises first |
| `AdvancedPipeline.Pipeline.ProcessAt` | src/advanced_pipeline.py:162 | one step of the batch loop: the handler is reached exactly when the record does not raise |
| `AdvancedPipeline.Pipeline.ProcessBatch` | src/advanced_pipeline.py:154-169 | the processed and failed lists in input order, ended by the first record that raises; processed_count grows by the number processed and the handler counts one error per record reached |
| `AdvancedPipeline.Pipeline.DatabaseOperation` | src/advanced_pipeline.py:170-184 | returns what the retried operation returns, after one database_connection error is counted |
| `AdvancedPipeline.RunStep` | src/advanced_pipeline.py:162-168 | a record that does not raise goes to one of the two lists and reaches the handler |
| `AdvancedPipeline.RunRaises` | src/advanced_pipeline.py:160-162 | a record that raises ends the run with the lists as they were |
| `AdvancedPipeline.RaisedStaysBatch` | src/advanced_pipeline.py:160-162 | once a record has raised, later records change nothing |
| `AdvancedPipeline.UnusedValidator` | src/advanced_pipeline.py:189 | the validator is never given a record, so its report is the empty one: nothing checked, success rate 1 |
| `AdvancedPipeline.DefectCycle` | src/advanced_pipeline.py:20-24 | the defect pattern repeats every 20 records |
| `AdvancedPipeline.DefectKinds` | src/advanced_pipeline.py:20-61 | a record has a defect exactly when i % 5 == 0, and records 0, 5, 10, 15 carry the four defects in turn |
| `AdvancedPipeline.RecordFields` | src/advanced_pipeline.py:27-33 | a built record holds exactly the five fields written |
| `AdvancedPipeline.GenerateSampleData` | src/advanced_pipeline.py:17-71 | one record per draw, record i built from draw i |
| `AdvancedPipeline.FieldsListed` | src/advanced_pipeline.py:83-89 | a record fails exactly the checks its fields fail |
| `AdvancedPipeline.SampleChecks` | src/advanced_pipeline.py:17-71 | with plausible draws, sample record i fails exactly the one check its defect breaks |
| `AdvancedPipeline.SampleValidity` | src/advanced_pipeline.py:21-22 | with plausible draws, sample record i is valid exactly when i is not a multiple of 5 |
| `DebugPipeline.DebugValidationSpec` | src/debug_pipeline.py:48-73 | run as a script, debug_validation agrees with DataValidator's verdict; imported, the unbound pandas name makes the timestamp check fail, so every record it does not raise on is refused; it raises, in both cases, exactly when transaction_id is missing or the amount does not compare |
| `DebugPipeline.DebugOutcomeSpec` | src/debug_pipeline.py:82-124 | a kept record is the input itself and passed every check; a record raises exactly when its validation does; imported, nothing is kept |
| `DebugPipeline.ImportedKeepsNothing` | src/debug_pipeline.py:75-126 | imported, process_transactions_debug returns [] |
| `DebugPipeline.Pipeline.constructor` | src/debug_pipeline.py:13-17 | a fresh validator with no errors, a fresh error handler with no errors, processed_count 0 |
| `DebugPipeline.Pipeline.ProcessOne` | src/debug_pipeline.py:82-124 | the loop body for record i: its outcome; processed_count grows by one exactly when the record is kept; a record that validated adds one processing_error to the handler, with its retries and waits, and any other record leaves the handler alone |
| `DebugPipeline.Pipeline.RetryProcessing` | src/debug_pipeline.py:104-109 | a processing_error passed to the handler returns what the retried operation returns; error_count and error_types['processing_error'] grow by one, retry_attempts['processing_error'] by the failed calls, and the waits by 2^k for each call |
| `DebugPipeline.Pipeline.ProcessDebug` | src/debug_pipeline.py:75-126 | the kept records in input order, a raising record ending the run; processed_count grows by the number kept; the handler ends in the state of one processing_error per validated record before the raise |
| `DebugPipeline.DebugHandlerCounts` | src/debug_pipeline.py:75-126 | over a run the handler gains at least one error per kept record and at most one per handled record, each counted under processing_error; imported, the handler is untouched |
| `DebugPipeline.DebugHandlerKeepsOthers` | src/debug_pipeline.py:104-109 | over a run no other error type and no other retry counter moves, and the earlier waits are kept as a prefix |
| `DebugPipeline.EvenOfFour` | src/debug_pipeline.py:29 | an index divisible by four is even |
| `DebugPipeline.FlaggedSample` | src/debug_pipeline.py:26-33 | the branch's inner conditions repeat its own: each of its records has an empty account and the timestamp 'invalid_date' |
| `DebugPipeline.GenerateSampleData` | src/debug_pipeline.py:19-46 | one record per draw, record i built from draw i |
| `DebugPipeline.FlaggedRefused` | src/debug_pipeline.py:26-33 | a record of the i % 4 == 0 branch is refused for its empty account, wherever the module runs |
| `DebugPipeline.OrdinaryAccepted` | src/debug_pipeline.py:34-42 | run as a script, a record of the other branch with plausible draws passes all five checks |
| `DebugPipeline.DebugSampleValidity` | src/debug_pipeline.py:24-42 | run as a script with plausible draws, record i validates exactly when i % 4 != 0 |
| `Monitoring.NewBatch` | src/monitoring.py:28-66 | a fresh batch has nothing processed, no end time and the tags given |
| `Monitoring.Percent` | src/monitoring.py:69-73 | part / whole * 100, and 0 when the whole is 0 |
| `Monitoring.PercentBounds` | src/monitoring.py:69-73 | a part between 0 and the whole is a percentage in [0, 100] |
| `Monitoring.PercentComplement` | src/monitoring.py:321-324 | the percentages of a part and of the rest of a positive whole add up to 100 |
| `Monitoring.RecordsPerSecond` | src/monitoring.py:75-80 | records over processing time, 0 when no time was measured |
| `Monitoring.DurationSeconds` | src/monitoring.py:90-95 | end minus start for a closed batch, 0 while it is open |
| `Monitoring.SuccessRateBounds` | src/monitoring.py:68-73 | with no more successes than records, success_rate is in [0, 100] |
| `Monitoring.AddTag` | src/monitoring.py:116-119 | the tag is present afterwards and nothing else is added |
| `Monitoring.AddTagIdempotent` | src/monitoring.py:116-119 | adding a tag twice is adding it once, and a list without duplicates keeps none |
| `Monitoring.RecordProcessingSpec` | src/monitoring.py:303-324 | every counter grows by its argument, failures by attempted - successful; once something was processed the quality score is 100 - error_rate, otherwise it is left alone; identity, tags and time are kept |
| `Monitoring.RecordProcessingAdds` | src/monitoring.py:303-324 | two recordings add up to one recording of their sums |
| `Monitoring.AlertStep` | src/monitoring.py:158-172 | one more threshold test keeps the alerts ordered and each quoting its crossed threshold |
| `Monitoring.CountStep` | src/monitoring.py:158-172 | one more threshold test adds one alert of its kind when it fires and none of any other kind |
| `Monitoring.AlertsSpec` | src/monitoring.py:154-172 | exactly one alert per crossed threshold and none for the others, each quoting its figure, in the order the thresholds are tested; the speed alert needs more than 1000 records |
| `Monitoring.AlertsShape` | src/monitoring.py:154-172 | the alerts are in testing order and each quotes its crossed threshold |
| `Monitoring.AlertCount` | src/monitoring.py:154-172 | one alert of a kind exactly when its threshold is crossed |
| `Monitoring.Entries` | src/monitoring.py:175-180 | one alerts_triggered entry per alert, in order, with the batch id |
| `Monitoring.AlertManager.constructor` | src/monitoring.py:144-152 | the given thresholds or the defaults 95, 5, 80, 85, 100; no alerts yet |
| `Monitoring.AlertManager.CheckBatchAlerts` | src/monitoring.py:154-182 | returns the batch's alerts and appends each once, in order, to alerts_triggered |
| `Monitoring.AlertManager.RecordAlerts` | src/monitoring.py:175-180 | the recording loop appends one entry per alert |
| `Monitoring.RatingMonotone` | src/monitoring.py:505-513 | a higher success rate never earns a lower rating; EXCELLENT exactly from 99, POOR exactly below 90 |
| `Monitoring.BottlenecksSpec` | src/monitoring.py:515-523 | each bottleneck is listed exactly when its bound is crossed, at most four |
| `Monitoring.StrengthsSpec` | src/monitoring.py:525-531 | each strength is listed exactly when its bound is passed; an excellent success rate goes with an EXCELLENT rating; speed is never both a bottleneck and a strength |
| `Monitoring.RecommendationsFollowAnalysis` | src/monitoring.py:535-552 | failures are investigated exactly for a FAIR or POOR rating, and the other three recommendations come exactly with the bottleneck of the same bound |
| `Monitoring.PeakIsMaximum` | src/monitoring.py:408-413 | the running peak is at least every value seen and is 0.0 or one of them |
| `Monitoring.TotalBounds` | src/monitoring.py:559-560 | bounds on every term bound the sum |
| `Monitoring.TotalRealBounds` | src/monitoring.py:561 | bounds on every term bound the real sum |
| `Monitoring.Recent` | src/monitoring.py:569 | the last ten batches, or all of them when there are fewer |
| `Monitoring.Speed` | src/monitoring.py:566 | records over seconds, 0 without measured time |
| `Monitoring.MeanBounds` | src/monitoring.py:570-582 | bounds on every term bound the mean |
| `Monitoring.OverallStatsBounds` | src/monitoring.py:554-585 | the batch count is the history's length, failed records are what remains of the records, and both success rates lie in [0, 100] |
| `Monitoring.RecentRateBounds` | src/monitoring.py:569-570 | the recent success rate lies in [0, 100] |
| `Monitoring.UpdatePerformanceStats` | src/monitoring.py:399-413 | one more batch, its records and time added, each peak the larger of the old peak and the batch's value |
| `Monitoring.StatsOfTotals` | src/monitoring.py:399-413 | the running statistics are the batch count, the totals and the peaks of the history |
| `Monitoring.Closed` | src/monitoring.py:275-282 | closing sets the end time and makes the processing time the span since the start; the counts and the id are kept |
| `Monitoring.PipelineMonitor.constructor` | src/monitoring.py:188-202 | the name given, a default alert manager with no alerts, an empty history, no open batch, zero statistics |
| `Monitoring.PipelineMonitor.StartBatch` | src/monitoring.py:255-264 | a fresh batch with the first resource sample replaces any open one; history and statistics are kept |
| `Monitoring.PipelineMonitor.RecordProcessingResults` | src/monitoring.py:303-324 | the open batch is updated by record_processing; without one nothing changes |
| `Monitoring.PipelineMonitor.UpdateStats` | src/monitoring.py:399-413 | the open batch's totals and peaks are added; without one nothing changes |
| `Monitoring.PipelineMonitor.EndBatch` | src/monitoring.py:269-301 | without an open batch nothing changes; otherwise the batch is closed, its alerts recorded, it joins the history and the statistics, and current_batch is cleared; the statistics always summarise the history |
| `Monitoring.OverallAgreesWithPerformance` | src/monitoring.py:554-585 | get_overall_stats agrees with performance_stats on batch count, records and time, and each peak bounds every batch |
| `Monitoring.ExampleRun` | src/monitoring.py:661-673 | the module's own batch (1000 attempted, 950 successful, 30 validation and 10 database errors) has 50 failures, success rate 95, error rate 9, quality score 91, a GOOD rating, and fires the error-rate alert only among the rate and speed alerts |
| `Scheduler.LastSpec` | src/scheduler.py:94 | `s[-n:]` keeps a suffix of exactly min(n, len(s)) elements, ending with s's last |
| `Scheduler.RecordOfSpec` | src/scheduler.py:57-134 | success exactly for return code 0, failed for any other code, timeout and error for the two exceptions, never left running; only a completed run has a return code, and its output is the last 1000 characters of stdout; the duration and end_time come from separate clock readings, so on a clock that never goes back the duration lies between 0 and end_time minus start_time |
| `Scheduler.BatchScheduler.constructor` | src/scheduler.py:28-37 | an empty history and zero statistics |
| `Scheduler.BatchScheduler.RunBatchJob` | src/scheduler.py:57-151 | returns the job's record; jobs_executed grows by one, and exactly one of jobs_succeeded and jobs_failed; the run's time is added and last_execution set; the record joins the history, of which the last 100 are kept |
| `Scheduler.HistoryKeepsNewest` | src/scheduler.py:141-146 | the newest record is last in the history, which never holds more than 100 records and drops its oldest only when full |
| `Timestamps.DatePart` | src/data_validator.py:39 | a date read is a real date of year 1 or later |
| `Timestamps.Clock` | src/data_validator.py:39 | a clock read lies within the day |
| `Timestamps.Fraction` | src/data_validator.py:39 | a fraction read keeps the clock within the day |
| `Timestamps.Offset` | src/data_validation.py:32 | an offset lies strictly within a day; nothing after the clock is a naive time |
| `Timestamps.ParseIso` | src/data_validation.py:32 | a moment read is one datetime can build |
| `Timestamps.ReplaceZ` | src/data_validation.py:32 | `replace('Z', '+00:00')` leaves no `Z` |
| `Timestamps.ReplaceZNoZ` | src/data_validation.py:32 | text without a `Z` is left as it is |
| `Timestamps.ParsedYear` | src/data_validator.py:40 | the year read is the number written in the first four characters |
| `Timestamps.NoLeadingDigit` | src/data_validator.py:39-42 | text whose first character is not a digit is never read |
| `Timestamps.DateOnly` | src/data_validation.py:32 | the date-only spelling reads as midnight with no offset |
| `Timestamps.SecondsSpelling` | src/data_validator.py:39 | `YYYY-MM-DD HH:MM:SS` with fields in range reads as that naive moment, with either separator |
| `Timestamps.ZuluSuffix` | src/data_validation.py:32 | pandas reads a trailing `Z` as offset 0, and fromisoformat refuses it |
| `Timestamps.Jan15Stamp` | test_validator.py:15-35 | `2024-01-15 HH:MM:00`, with `T` or a space, reads as that morning |
| `Timestamps.NumberNanos` | src/data_validator.py:39 | pandas reads a number as nanoseconds since the epoch, cast to int64 toward zero: the count lies within int64 above NaT and within one of the number |
| `Timestamps.EpochOrder` | src/data_validator.py:40 | `ts <= datetime.now()` between naive moments holds exactly when the first's nanosecond count is not larger |
| `Timestamps.YearFrom2020` | src/data_validator.py:40 | a moment's year is 2020 or later exactly when its count is at least 1577836800000000000 |
| `Transactions.CountPositive` | src/validated_processor_fixed.py:163-167 | the records with a positive amount are never more than the records |
| `Validated.FallbackSpec` | src/validated_processor_fixed.py:157-170 | `_fallback_process` raises exactly when some amount cannot be compared with 0; otherwise it counts the records with a positive amount, and counts them all exactly when every amount is positive |
| `Validated.FallbackRaisedStays` | src/validated_processor_fixed.py:163-167 | once a comparison has raised, the later records cannot undo it |
| `Validated.FallbackProcess` | src/validated_processor_final.py:113-125 | the counting loop returns the fallback count, or raises where it does |
| `Validated.KeptAccepted` | src/data_validation.py:43-55 | every record validate_batch keeps is one validate_transaction accepts |
| `Validated.AcceptedAmount` | src/data_validation.py:12-41 | an accepted record has an amount that is a positive number or text |
| `Validated.FallbackOnValid` | src/validated_processor_fixed.py:157-170 | the fallback counts every validated record exactly when all their amounts are numbers; a text amount, which float() accepted, makes the comparison raise |
| `Validated.ValidateTransactions` | src/validated_processor_fixed.py:102-117 | returns validate_batch's records and generate_validation_report's report over the same input; an empty input raises ZeroDivisionError in the log line |
| `Validated.FirstPresent` | src/validated_processor_fixed.py:132-139 | the loop with break finds a name exactly when the object exposes one of them, and the one found is the first exposed in list order |
| `Validated.SummaryOf` | src/validated_processor_fixed.py:193-224 | the result dictionary over the valid list and report a caller holds: the failed-validation result when none is valid, otherwise success with the processed count, or the processing step's exception |
| `Validated.SummarySpec` | src/validated_processor_fixed.py:193-224 | success exactly when some record validated; valid and rejected add up to the original; all three agree with the report, which lists one error per rejected record; a failed run processed 0 |
| `Validated.BoundedSummary` | src/validated_processor_final.py:148-181 | with a processing step bounded by the valid records, the processed count lies between 0 and the valid count |
| `ValidatedFixed.ProcessTransactionsSpec` | src/validated_processor_fixed.py:119-155 | without a usable processor the count is the fallback's; a callable is called once; an instance has the first of process_batch, process and run it exposes called, and none means the fallback; an int result is kept, a mapping gives its processed_count or the number of records, anything else the number of records |
| `ValidatedFixed.RunValidatedPipeline` | src/validated_processor_fixed.py:172-226 | "No transactions" exactly for an empty input; otherwise the summary of processing only the valid records, with success exactly when some validated and rejected = original - valid |
| `ValidatedFinal.ProcessWithExistingPipeline` | src/validated_processor_final.py:75-111 | the loop over 1000-record slices returns the saved count, or the fallback's after an exception |
| `ValidatedFinal.SavedSlicesSpec` | src/validated_processor_final.py:93-102 | the slices never add more than they hold, add all of them when every save is truthy and none when every save is falsy, and end in an exception exactly when some save raises |
| `ValidatedFinal.ExistingPipelineSpec` | src/validated_processor_final.py:75-111 | the shipped program, whose `from database import DatabaseManager` fails, always returns the fallback count; the count never exceeds the records; every slice saved and a clean close count them all; a raising save or close throws the partial count away for the fallback's |
| `ValidatedFinal.ExistingPipelineBound` | src/validated_processor_final.py:75-111 | the count never exceeds the records handed in |
| `ValidatedFinal.SaveValid` | src/validated_processor_final.py:149-151 | the processing step returns process_with_existing_pipeline's count, between 0 and the valid records |
| `ValidatedFinal.RunValidatedPipeline` | src/validated_processor_final.py:127-183 | "No transactions" for an empty input; otherwise a completed result or the exception, equal to the summary of saving only the valid records |
| `ValidatedFinal.FinalSummarySpec` | src/validated_processor_final.py:148-181 | success exactly when some record validated, rejected = original - valid, and a processed count between 0 and the valid count |
| `ValidatedDatabase.SaveOneAsWritten` | src/validated_processor_database.py:84-92 | as written, the `for`-`else` counts a record unless a call raised, even when every save returned False |
| `ValidatedDatabase.SavedByStep` | src/validated_processor_database.py:84-89 | a record saved by a later method is one the first exposed method, if any, failed to save |
| `ValidatedDatabase.SaveOneIntended` | src/validated_processor_database.py:84-92 | with the `else` kept for its stated purpose, a record counts exactly when some exposed method returns truthy after every earlier exposed one returned falsy, or when none is exposed |
| `ValidatedDatabase.SaveOneNoMethods` | src/validated_processor_database.py:90-92 | a client with no per-record method counts every record |
| `ValidatedDatabase.SavedCountSpec` | src/validated_processor_database.py:76-103 | saved_count never exceeds the records; it counts them all when no per-record method is exposed and, as written, whenever no call raises |
| `ValidatedDatabase.SaveIndividually` | src/validated_processor_database.py:78-103 | the per-record loop returns saved_count, one per record the inner loop counted |
| `ValidatedDatabase.SaveToDatabase` | src/validated_processor_database.py:53-108 | without a client the fallback count; the first exposed batch method means all records, or the fallback count when it raises; otherwise the individual saves' count |
| `ValidatedDatabase.SaveResultBatch` | src/validated_processor_database.py:61-74 | the first exposed batch method in list order is the one called, and the result is every record unless it raises |
| `ValidatedDatabase.ShippedClientCountsAll` | src/validated_processor_database.py:76-103 | the DatabaseClient of src/database.py exposes no save method, so every record is reported saved |
| `ValidatedDatabase.SaveResultBound` | src/validated_processor_database.py:53-116 | a count never exceeds the records handed in |
| `ValidatedDatabase.ShippedHasNone` | src/validated_processor_database.py:61-82 | none of the eight probed names is an attribute of the shipped DatabaseClient |
| `ValidatedDatabase.FalseSavesCounted` | src/validated_processor_database.py:84-92 | a client whose only method, save_transaction, returns False: as written every record is reported saved, as intended none is |
| `ValidatedDatabase.NothingSavedIntended` | src/validated_processor_database.py:84-92 | with the corrected `else`, that client saves no record |
| `ValidatedDatabase.RunProductionPipeline` | src/validated_processor_database.py:132-183 | an empty generated list raises in validate_transactions' log line; otherwise the summary of saving only the valid records |
| `ValidatedDatabase.ProductionSummarySpec` | src/validated_processor_database.py:148-178 | success exactly when some record validated, rejected = original - valid, and a processed count between 0 and the valid count |
| `FinalWorking.Fresh` | src/final_working_processor.py:37 | the chunk holds one unstamped record per generated dictionary, in order |
| `FinalWorking.Stamp` | src/database.py:52-55 | insert_transaction_batch sets processed_at on every record it is given, changing nothing else |
| `FinalWorking.ChunkCountSpec` | src/final_working_processor.py:29 | range(0, total_records, chunk_size) yields the ceiling of total / size offsets, each below the total, and none for a total of 0 or less |
| `FinalWorking.Results` | src/final_working_processor.py:43-55 | one insert result per slice |
| `FinalWorking.ReportedIsAccepted` | src/final_working_processor.py:50-55 | the counts the client reports over a run of slices add up to the records the table gained, never more than it was given |
| `FinalWorking.InsertChunk` | src/final_working_processor.py:40-62 | the slice loop hands consecutive 10000-record slices to insert_transaction_batch, leaves the chunk stamped, returns chunk_stored as the sum of the reported counts, the table gaining exactly the accepted slices; with a monitor, each slice's result is recorded with the unstored records as database errors |
| `FinalWorking.InsertNext` | src/final_working_processor.py:43-55 | one pass of the slice loop: the next slice is stamped in place, inserted, and its count added |
| `FinalWorking.FeedMonitor` | src/final_working_processor_fixed.py:115-123 | record_processing_results gets the slice's attempted and stored counts, no skipped or validation errors, and the rest as database errors; nothing without monitoring |
| `FinalWorking.StoredCounts` | src/final_working_processor.py:29-64 | one chunk_stored per chunk of the range, in order |
| `FinalWorking.InsertGenerated` | src/final_working_processor.py:37-64 | chunk c is generated and inserted after chunks 0..c-1, its count being what the client reports for its slices |
| `FinalWorking.ChunkStep` | src/final_working_processor.py:64 | each processed chunk's count joins the total |
| `FinalWorking.ProcessLargeDataset` | src/final_working_processor.py:23-78 | the returned total is the sum of chunk_stored over the chunks processed before the check `total_stored >= demo_limit` stopped the loop, and the table gains exactly those chunks' accepted slices |
| `FinalWorking.LoopExit` | src/final_working_processor.py:29-34 | the loop stops at the end of the range, or at the first chunk whose predecessors' total reached the limit |
| `FinalWorking.ProcessChunk` | src/final_working_processor.py:36-64 | one iteration: chunk c is inserted and its count joins the total |
| `FinalWorking.ReportMatchesTable` | src/final_working_processor.py:71-76 | the figure "Script reports" equals the rows the table gained in this run, which the final verification compares |
| `FinalWorking.ChunkStoredBound` | src/final_working_processor.py:63 | chunk_stored never exceeds the records generated for the chunk |
| `FinalWorking.AttemptedIsLength` | src/final_working_processor.py:43-44 | the slices of a chunk together hold the whole chunk |
| `FinalWorking.CeilingOvershoot` | src/final_working_processor.py:29-64 | with full chunks the total stays below demo_limit + chunk_size |
| `FinalWorking.StoreRawData` | src/final_working_processor_backup.py:105-125 | the object named raw-batch-chunk-n.json is written to a reachable store when the records serialise; a failure of either step writes nothing and is swallowed |
| `FinalWorking.ProcessWithBackup` | src/final_working_processor_backup.py:36-103 | the total and table as in the plain loop, and the backups of every third chunk processed, a failed backup leaving the total alone |
| `FinalWorking.BackupChunk` | src/final_working_processor_backup.py:50-93 | one iteration: chunk c is inserted and backed up when c + 1 is a multiple of 3 |
| `FinalWorking.BackupIfDue` | src/final_working_processor_backup.py:91-93 | the backup is attempted exactly when chunk_num % 3 == 0 |
| `FinalWorking.StampedNotSerialisable` | src/final_working_processor_backup.py:112 | a chunk with records is stamped by its inserts, so json.dumps raises on it |
| `FinalWorking.NoBackupAsWritten` | src/final_working_processor_backup.py:91-93 | as written, no chunk with records is ever backed up |
| `FinalWorking.EveryThird` | src/final_working_processor_backup.py:92 | the names of chunks 3, 6, 9, ... up to k, in order |
| `FinalWorking.BackupEveryThird` | src/final_working_processor_backup.py:91-93 | serialising the chunk as generated backs up exactly chunks 3, 6, 9, ... of those processed |
| `FinalWorking.ChunkBatches` | src/final_working_processor_fixed.py:84-140 | one closed monitor batch per processed chunk, named `chunk_NN` |
| `FinalWorking.ProcessMonitored` | src/final_working_processor_fixed.py:57-227 | the total and table as in the plain loop; "Chunks processed" also counts the iteration that met the ceiling; with monitoring the history gains one batch per processed chunk, the pipeline batch only when no chunk ran, and nothing stays open; without it the monitor is untouched |
| `FinalWorking.ClosePipeline` | src/final_working_processor_fixed.py:163-165 | the closing end_monitoring leaves nothing open |
| `FinalWorking.PipelineClosed` | src/final_working_processor_fixed.py:60-165 | each chunk's start_batch replaced the open pipeline batch, so the closing end_monitoring records the pipeline batch only when no chunk ran |
| `FinalWorking.MonitoredLoop` | src/final_working_processor_fixed.py:74-158 | the monitored chunk loop stops where the plain loop does, with the same total and table and one closed batch per chunk |
| `FinalWorking.EndMonitoring` | src/monitoring.py:646-648 | end_monitoring closes the open batch, if any, into the history |
| `FinalWorking.MonitoredChunk` | src/final_working_processor_fixed.py:82-144 | one iteration of the monitored loop keeps the loop's state one chunk further |
| `FinalWorking.ChunkUnderMonitor` | src/final_working_processor_fixed.py:84-140 | chunk c between its start_monitoring and end_monitoring: inserted, and its fed batch closed into the history |
| `FinalWorking.ChunkClosed` | src/final_working_processor_fixed.py:139-140 | closing the chunk's fed batch appends exactly that chunk's batch |
| `FinalWorkingQuality.MissingFrom` | src/final_working_processor_fixed.py:265 | the list holds exactly the required fields the record lacks |
| `FinalWorkingQuality.MissingIffIncomplete` | src/final_working_processor_fixed.py:248-266 | a record misses no required field exactly when `all(field in record ...)` holds |
| `FinalWorkingQuality.FieldIssuesSpec` | src/final_working_processor_fixed.py:251-258 | each message appears exactly when its check fails (an id without `tx_`, a customer without `cust_`, an amount <= 0), in check order, at most three |
| `FinalWorkingQuality.CountComplete` | src/final_working_processor_fixed.py:248-249 | the records with every required field are never more than the sample |
| `FinalWorkingQuality.ScanRaises` | src/final_working_processor_fixed.py:246-258 | the loop raises exactly when some complete record has an id that is not text or an amount that is not a number |
| `FinalWorkingQuality.ScanCounts` | src/final_working_processor_fixed.py:246-266 | total_checked never changes; each record counts once, as valid structure or as missing fields; invalid_structure counts only complete records; each flagged record adds one to three messages and each incomplete one exactly one |
| `FinalWorkingQuality.QualityCounts` | src/final_working_processor_fixed.py:235-266 | valid_structure + missing_fields == total_checked == the sample size, and invalid_structure <= valid_structure |
| `FinalWorkingQuality.GeneratedClean` | src/data_generator.py:10-24 | a record as generate_batch builds it raises no issue |
| `FinalWorkingQuality.ScanGenerated` | src/final_working_processor_fixed.py:246-266 | over generated records the loop only counts valid structure |
| `FinalWorkingQuality.GeneratedSampleClean` | src/final_working_processor_fixed.py:229-284 | a generated sample is fully valid: no invalid record, no missing field, no issue |
| `FinalWorkingQuality.ValidateDataQuality` | src/final_working_processor_fixed.py:229-284 | the loop returns validation_results, or raises where a record has a field of the wrong type or where sample_size is 0 and the success rate divides by it |
| `FinalWorkingQuality.ThresholdIff` | src/final_working_processor_fixed.py:316 | below 95% exactly when fewer than 19 in every 20 checked records are well-formed |
| `FinalWorkingQuality.RunMain` | src/final_working_processor_fixed.py:299-369 | the connection is closed in every case; the run goes to the handler, storing nothing, exactly when validation raises or the sample is empty; otherwise the gate's verdict and the stored total of process_large_dataset(1000000, 100000, 300000) |
| `FinalWorkingQuality.StoredWhenAccepted` | src/final_working_processor.py:43-55 | a client that takes every batch stores every record it is given |
| `FinalWorkingQuality.ChunkStoredAll` | src/final_working_processor.py:40-62 | such a client stores every record of a chunk |
| `FinalWorkingQuality.MainParameters` | src/final_working_processor_fixed.py:323-327 | with main's parameters and full chunks, ten chunks are planned and three processed for exactly 300,000 records |
| `FinalWorkingQuality.FullChunks` | src/final_working_processor.py:37-64 | every full chunk reports chunk_size records |
| `FinalWorkingQuality.ThreeFull` | src/final_working_processor.py:32-34 | after two full chunks the total is below the limit, after three it reaches it |

## Left out

- Database and object-store I/O: psycopg2, MinIO, SQLite, the SQL text, `create_aggregations` and ON CONFLICT. The connection is an abstract class. Its `accepts` predicate decides each INSERT, and it keeps pending and committed rows. A dead connection raises on every call.
- Aborted PostgreSQL transactions: after a failed INSERT, PostgreSQL rejects the rest of the transaction. The model lets each INSERT succeed or fail on its own, because the SQL layer is abstract.
- The format-free date fallback (`pd.to_datetime` without a format, dateutil): its heuristics are not in the repository's code, so it is a function parameter from text to a date or None. It is consulted only for text that is not blank or a NaT spelling; for those the model gives NaT directly, as pandas does. Other text the fallback might read as NaT is not modelled.
- Floating point: `float()` gives the exact real that the literal denotes. Rounding to the nearest double, and the overflow of a huge literal such as `1e400` to infinity, are not modelled. The `inf`, `infinity` and `nan` spellings are modelled. Rates are exact real divisions.
- The clock, randomness and sleeps: `datetime.now`, `time.time`, `random`, `uuid` and the data generators are parameters. `time.sleep` waits are recorded as a list of delays where the source's logic depends on them, and are otherwise left out.
- Logging, printing, and the reports, dashboards and JSON files written to disk: these cover `save_metrics`, `generate_batch_report`, `print_dashboard`, `export_errors`, `export_error_report`, `save_job_history` and the `to_dict` methods. None of them changes a count.
- `ErrorHandling.ErrorHandler`: the error entries' wall-clock timestamps and message texts are not modelled. The handler's counts and strategies are.
- psutil samples: `_capture_system_metrics` readings are parameters. `record_custom_metric`, `get_recent_metrics` and `clear_old_metrics` are left out, because they only read or trim time-stamped lists for display.
- Alert entries: which alerts fire, and their order and count, are modelled. Their message texts are not.
- `validate_data_quality`'s Counter top-3 summary is left out; it only logs.
- The scheduler's subprocess and `schedule` loop are left out. So are `run_daily_maintenance` and `run_weekly_reporting`, which only call `run_batch_job` with a fixed job type. `src/scheduler_control.py` is not part of this model.
- The scheduler's logging setup: `logging.FileHandler` does not take the `level` keyword it is given, so `BatchScheduler()` raises TypeError before any job can run. The model starts from the state the constructor means to build. The `from monitoring import metrics` import always fails, which only sets a flag that `run_batch_job` never reads.
- Reflective discovery (`importlib`, `hasattr` on modules, `_get_config`): the processor or client it finds is a parameter, given as the set of attribute names it exposes and what each call returns or raises.
- Result-dictionary fields not modelled: the `timestamp` strings, `pipeline` and `database_used`.
- ValidatedFixed.ProcessTransactionsSpec: a `bool` result is not counted as an int, and a `get` that raises is not modelled (the source then returns the number of records). Non-int `processed_count` values are modelled as ints.
- The DatabaseClient constructor's connection retries, and the exception text of a failed cursor, are left out. A client is connected or it is not.
- KeyboardInterrupt handlers: no user interrupt is modelled.
- Digits are ASCII only: the `%d`, `%m`, `%y` and `%Y` matchers and `float()` read '0'..'9', while `strptime`'s `\d` and `float()` also accept other Unicode decimal digits. Text written in such digits is refused by the model.
- Timestamps: `pd.to_datetime` and `datetime.fromisoformat` are modelled only on the ISO-8601 spellings `YYYY-MM-DD[(T| )HH:MM[:SS[.fff[fff]]]][±HH:MM|Z]` and, for pandas, on numbers (epoch nanoseconds). Other spellings those libraries accept are outside the model; the reader refuses them.
- Timestamps.NumberNanos: a float's fraction of a nanosecond is dropped toward zero, as the int64 cast of current pandas does; releases that round it instead can differ by one nanosecond.
- The timing and throughput figures of `generate_comprehensive_report` and of the final-working processors' logs are left out. They are clock differences that only appear in print.
- `src/ingestion/`, `src/simple_batch.py`, the debug-data and CSV-structure scripts, the setup and configuration scripts, `src/main.py`, `src/test_data_fix.py`, the demo and driver scripts, and the Prometheus/Flask servers under `monitoring/` are not part of this model.
- FinalWorking.Stamp: `insert_transaction_batch` stamps the records only once a cursor has opened. The model stamps every non-empty batch it is handed, even on a connection that then fails.
- FinalWorking.InsertChunk: `get_transaction_count` is queried after the slices, and `time.sleep(0.1)` is called between them. Both are left out because they change no count.

## Findings

| source | as written | input that shows it | evidently intended | confidence | as-written member | corrected member |
|---|---|---|---|---|---|---|
| src/final_working_processor_backup.py:91-93 | every third chunk is passed to `_store_raw_data_in_minio` after its inserts, and `insert_transaction_batch` has set a `processed_at` datetime on each of its dictionaries, so `json.dumps` raises and the exception is swallowed | any run that processes three non-empty chunks on a working connection: chunk 3 is never backed up | back up chunks 3, 6, 9, ... as generated | not executed | `FinalWorking.NoBackupAsWritten` (with `FinalWorking.ProcessWithBackup`, `asGenerated` false) | `FinalWorking.BackupEveryThird` (with `FinalWorking.ProcessWithBackup`, `asGenerated` true) |
| src/validated_processor_database.py:84-92 | the `else` of the per-record `for` loop runs whenever the loop ends without `break`, including after every exposed save method returned False, so a failed save is counted as saved | a client whose only method is `save_transaction`, returning False for every record: every record is reported saved | count a record only when a save returns truthy or when no per-record method exists, as the branch's comment says | not executed | `ValidatedDatabase.SaveOneAsWritten`, `ValidatedDatabase.FalseSavesCounted` | `ValidatedDatabase.SaveOneIntended`, `ValidatedDatabase.NothingSavedIntended` |
