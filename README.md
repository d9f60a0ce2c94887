# ANS expense ETL — a verified Dafny model

This project models the transformation core of an ETL pipeline for the
accounting statements that Brazilian health-plan operators file with
the ANS (Agência Nacional de Saúde Suplementar). The pipeline has four
stages:

- It reads the operator registry (CADOP) files into a master table
  keyed by the ANS registry code.
- It reads the quarterly accounting archives and keeps the expense
  lines, meaning the lines whose description mentions EVENTO or
  SINISTRO. Each line is tagged with the year and quarter taken from the
  archive's file name, and its balance is converted from the Brazilian
  number format.
- It joins every expense line to its operator and fills the sentinels
  for lines without a match. It then drops lines with a null or zero
  balance and sums the balances per operator and quarter.
- It flags every consolidated row for data quality (a modulus-11 CNPJ
  check, a non-blank company name, a positive value), builds the
  per-(RazaoSocial, UF) statistics report, and sorts the export by
  (Ano, Trimestre, RazaoSocial).

Two processors are modelled. The current one is `src/etl/processor.py`
with `src/etl/validator.py`. The superseded one is `src/processor.py`:
it is keyed on `REG_ANS`, uses no sentinels, drops lines without a
registry CNPJ, and groups on (CNPJ, RazaoSocial, Trimestre, Ano) only.

Modules, one file each:

- `wrappers`: `Option`.
- `text`: strip, upper, lower, substring search, basename, string order.
- `collections`: filter, sums, drop_duplicates, groupby-sum, sort.
- `table`: raw tables, rename, concat.
- `period`: year and quarter from a file name.
- `locale`: Brazilian number conversion.
- `frames`: row types and the frames changed in place.
- `extraction`: the master and the accounting extraction, shared by both
  processors through a `Variant` (the layout each processor fixes).
- `enrichment`: the key trim and the left join.
- `validator`: the CNPJ check and the quality flags.
- `processor`: the current `DataProcessor`.
- `legacy`: the superseded `DataProcessor`.

Rules used throughout:

- The file system is a `Storage` value (what a file or archive member
  reads as).
- Balances are exact reals. The sample standard deviation is a
  parameter `deviation`.
- Each stage is a function.
- The loops over files are methods proved equal to those functions.
- The frames the source mutates (the key columns trimmed in place, the
  flag columns added by validation) are classes whose methods state
  their new state.

Where the code and its documentation disagree, the model follows the
code:

- The second CNPJ check digit is computed from the input's first 13
  digits, not from the computed first digit. `Validator.ValidateCnpjMeaning`
  proves the two readings agree.
- The legacy docstring says it groups by (CNPJ, Ano, Trimestre). The
  code also groups by RazaoSocial.

## Model

| member | source | states |
|---|---|---|
| Validator.CheckDigit | src/etl/validator.py:28-30 | the digit is at most 9; it is 0 when the weighted sum is 0 or 1 mod 11, otherwise it brings the sum to a multiple of 11 |
| Validator.OnlyDigits | src/etl/validator.py:45 | re.sub(r"\D", "", s) keeps only the digits 0-9 and leaves an all-digit string unchanged |
| Validator.ValidateCnpj | src/etl/validator.py:43-56 | a null is invalid; a valid CNPJ has 14 digits that are not all the same |
| Validator.ValidateCnpjMeaning | src/etl/validator.py:43-56 | valid exactly when the digits are 14, not all equal, and end with the two modulus-11 check digits of the first 12 |
| Validator.NonDigitIgnored | src/etl/validator.py:45 | inserting a mask character anywhere does not change the verdict |
| Validator.FirstCheckDigitMatters | src/etl/validator.py:50-56 | changing the 13th digit of a valid CNPJ makes it invalid |
| Validator.SecondCheckDigitMatters | src/etl/validator.py:53-56 | changing the 14th digit of a valid CNPJ makes it invalid |
| Validator.WithCheckDigitsAccepted | src/etl/validator.py:47-56 | a 12-digit base completed with its check digits is accepted unless all 14 digits are equal |
| Validator.RepeatedDigitRejected | src/etl/validator.py:47-48 | a 14-digit string of one repeated digit is rejected |
| Validator.ZerosCarryCheckDigits | src/etl/validator.py:47-56 | "00000000000000" has correct check digits yet is rejected by the repeated-digit rule |
| Validator.RowFlags | src/etl/validator.py:82-91 | CNPJ_Valido is the CNPJ check; RazaoSocial_Valida holds when the name is non-null and not blank after strip; Valor_Valido holds when the value is positive; Registro_Conforme is the conjunction of the three |
| Validator.FlagRowsKeepsRows | src/etl/validator.py:82-91 | flagging keeps every row's key and value and gives each row its own flags |
| Validator.FlagRowsIdempotent | src/etl/validator.py:82-91 | validating twice gives the same rows as validating once |
| Validator.FlaggedColumnsSpec | src/etl/validator.py:82-91 | the old columns come first, the four flag columns are present, nothing else is added, and adding them twice is the same as once |
| Validator.RunQualityChecks | src/etl/validator.py:79-93 | an empty frame is returned unchanged; otherwise it fails on a missing CNPJ, RazaoSocial or ValorDespesas; else it flags every row in place and adds the flag columns |
| Period.FindYear | src/etl/processor.py:80-81 | null exactly when no `20\d{2}` occurs; otherwise the four characters of the leftmost occurrence |
| Period.FindQuarter | src/etl/processor.py:83-84 | null exactly when no digit 1-4 is followed by t/T; otherwise the digit of the leftmost such occurrence |
| Period.IdentifyPeriod | src/etl/processor.py:80-85 | the year is "20" plus two digits and the quarter a digit 1-4; each is null exactly when its pattern is absent |
| Period.PeriodOfQuarterFirstName | src/etl/processor.py:70-85 | "1T2025" gives (2025, 1) |
| Period.PeriodOfYearFirstName | src/etl/processor.py:70-85 | "2024_3trim" gives (2024, 3) |
| Period.PeriodOfBareQuarter | src/etl/processor.py:70-85 | "4t" gives no year and quarter 4 |
| Period.PeriodOfUndatedName | src/etl/processor.py:80-85 | a name without a date gives (null, null) |
| Period.LeftmostMatchWins | src/etl/processor.py:80-85 | with two periods in the name, the leftmost year and the leftmost quarter are taken |
| Locale.ParseNumberComplete | src/etl/processor.py:279-281 | every number (an optional '+' or '-', digits and an optional fraction after a '.', at least one digit) parses to its signed value |
| Locale.ParseNumberSound | src/etl/processor.py:279-281 | every text that parses is such a number, and its parse is that number's signed value; anything else is null |
| Locale.ToNumberMeaning | src/etl/processor.py:271-281 | a cell's text converts to v exactly when, with the dots deleted and the comma made a point, it is a number whose signed value is v |
| Locale.GroupedWithoutDots | src/etl/processor.py:273-276 | deleting the thousands dots of a grouped number gives back its digits |
| Locale.DelocalizeUnsigned | src/etl/processor.py:273-276 | "1.234.567,89" becomes "1234567.89" for any digits |
| Locale.BrazilianRoundTrip | src/etl/processor.py:271-281 | every unsigned amount written in the Brazilian format (grouped thousands, decimal comma) converts to its value |
| Locale.SignedConversion | src/etl/processor.py:271-281 | every amount in the Brazilian format, with or without a leading '-', converts to its signed value |
| Locale.DelocalizeNegated | src/etl/processor.py:273-276 | the dot and comma clean-up leaves a leading minus in place |
| Locale.ParseNegatedText | src/etl/processor.py:279-281 | a minus in front of a digit-led number negates its value, and an unparseable text stays null |
| Locale.ConversionOfThousands | src/etl/processor.py:271-281 | "1.234,56" converts to 1234.56 |
| Table.Cell | src/etl/processor.py:182-186 | a column the table lacks reads as null |
| Table.AddNames | src/etl/processor.py:158 | the concatenated header extends the previous one with exactly the new names |
| Table.ConcatPreservesCells | src/etl/processor.py:158 | pd.concat keeps every row of every table, table after table, each cell under its own column name |
| Extraction.LoadRegistryMaster | src/etl/processor.py:141-194 | the loop over the registry files builds the master that `BuildMaster` defines |
| Extraction.BuildMasterSpec | src/etl/processor.py:154-194 | the master is empty exactly when nothing loaded or the key column is missing; otherwise its columns are exactly the kept columns the renamed registry has; its keys are unique; it holds every key, each with its first registry row |
| Extraction.MasterDedupStable | src/etl/processor.py:185-187 | deduplicating the master again changes nothing |
| Extraction.MemberExpensesSpec | src/etl/processor.py:240-294 | a member without a required column gives nothing; otherwise every line taken is one of its EVENTO/SINISTRO rows, converted and tagged with the archive's period, and every such row is taken |
| Extraction.ExpenseLineSpellings | src/etl/processor.py:266-268 | the case-insensitive EVENTO/SINISTRO search also matches a dotted or dotless capital I and a long s, as Python's re IGNORECASE does, rejects a description naming neither word, and never takes a null description |
| Extraction.MemberExpensesTotal | src/etl/processor.py:263-294 | the lines taken from a member add up to the converted balances of exactly its EVENTO/SINISTRO rows, so no row is lost or counted twice |
| Extraction.ScanMembersTotal | src/etl/processor.py:231-299 | when no member fails to extract, every member is read and the lines add up to the sum of the members' expense totals |
| Extraction.ArchiveExpensesTotal | src/etl/processor.py:222-299 | such an archive contributes the sum of its members' expense totals when its name has a year and a quarter, and nothing otherwise |
| Extraction.AccountingExpensesTotal | src/etl/processor.py:219-303 | the accounting lines add up to the sum of the archives' totals |
| Extraction.ScanStaysStopped | src/etl/processor.py:231-299 | once extracting a member raises, the rest of that archive is skipped |
| Extraction.ArchiveExpensesTagged | src/etl/processor.py:222-228 | every line of an archive carries the year and quarter named by that archive |
| Extraction.AccountingExpensesTagged | src/etl/processor.py:219-303 | every accounting line carries the period of one of the input archives |
| Extraction.NormalisedHeaderUnaccented | src/etl/processor.py:243-253 | normalised headers have no Ç or Ã, so the "DESCRIÇÃO" rename entry never applies |
| Extraction.ReadArchive | src/etl/processor.py:222-299 | the loop over one archive's members gives that archive's lines |
| Extraction.ProcessAccountingFiles | src/etl/processor.py:219-303 | the loop over the archives gives the accounting lines of every .zip input, in order |
| Enrichment.MergeUniqueSpec | src/etl/processor.py:398-401 | the left join against a master unique on the trimmed key gives one row per accounting line, in order, joined to that key's registry row |
| Enrichment.MergeUniqueTotal | src/etl/processor.py:398-401 | the join keeps the total of the balances |
| Enrichment.JoinAllBalances | src/etl/processor.py:401 | every joined row carries the balance of an accounting line |
| Enrichment.SplitKeyDuplicatesLine | src/etl/processor.py:185-187 | registry keys "1" and "1 " survive deduplication, trim to the same key, and make the as-written join repeat the line and double the total |
| Processor.EnrichedSpec | src/etl/processor.py:401-412 | the cleaned rows are the filled joins of exactly the lines with a non-null, non-zero balance; a registry column the master has is never null in them, one it lacks is absent |
| Processor.EnrichedTotal | src/etl/processor.py:401-412 | join, fill and cleaning keep the accounting total |
| Processor.UnmatchedLineFilled | src/etl/processor.py:403-409 | an unmatched line with a balance is kept, with the sentinel in every registry column the master has |
| Processor.ConsolidateSpec | src/etl/processor.py:416-432 | one row per distinct identity, each holding the sum of that identity's balances; the total is kept; no row is flagged yet |
| Processor.ConsolidatedColumnsSpec | src/etl/processor.py:426-432 | CNPJ, RazaoSocial and UF reach the consolidated frame exactly when the master has them; ValorDespesas always does |
| Processor.ConsolidateEmpty | src/etl/processor.py:428-430 | consolidation is empty exactly when its input is |
| Processor.EnrichedEmpty | src/etl/processor.py:411-412 | nothing is left to consolidate exactly when no line has a non-null, non-zero balance |
| Processor.ReportSpec | src/etl/processor.py:335-343 | the report is sorted by descending total; it has one line per (RazaoSocial, UF) present; each line holds the sum and mean of its values, with deviation 0.0 for a single value |
| Processor.PeriodOrderTotal | src/etl/processor.py:446 | the (Ano, Trimestre, RazaoSocial) order is total, so the sort result is sorted |
| Processor.SortedExport | src/etl/processor.py:435-446 | validation and sort keep the identities, each once, and the total; the result is sorted and each row carries its own flags |
| Processor.CurrentMasterColumns | src/etl/processor.py:182-187 | the master has rows exactly when the registry does, and has CNPJ, RazaoSocial and UF exactly when the renamed registry does |
| Processor.RegistryColumnsAvoidCrash | src/etl/processor.py:392-446 | with registry rows whose files name the key, CNPJ, RazaoSocial and UF, the run skips exactly when there is no accounting line and exports otherwise, never crashing |
| Processor.OutcomeSpec | src/etl/processor.py:392-446 | the run is skipped exactly when an input is empty; it crashes exactly when RazaoSocial or UF is missing, or CNPJ is missing while a line has a balance |
| Processor.ExportedRowsSpec | src/etl/processor.py:392-446 | an export is sorted, has one row per identity of a line with a balance, adds up to the accounting total, and is flagged row by row |
| Processor.ExportedColumnsSpec | src/etl/processor.py:426-446 | the exported columns are the consolidated ones, followed by the flag columns when there are rows |
| Processor.NothingToConsolidateCrashesAsWritten | src/etl/validator.py:79-80 | as written, a run whose balances are all null or zero ends in a KeyError on Registro_Conforme |
| Processor.NothingToConsolidateExported | src/etl/processor.py:435-446 | the corrected run exports an empty table and an empty report in that case |
| Processor.AsWrittenAgrees | src/etl/processor.py:398-446 | when the trimmed master keys are unique and some line has a balance, the as-written run and the corrected run agree |
| Processor.JoinPath | src/etl/processor.py:58 | os.path.join returns an absolute name (one starting with '/') alone; otherwise it puts the directory first and the name last, with one '/' between them |
| Processor.JoinPathBasename | src/etl/processor.py:58 | the basename of the joined path is the file name |
| Processor.FlaggedColumnsKeep | src/etl/processor.py:435-444 | adding the flag columns neither adds nor removes RazaoSocial or UF |
| Processor.DataProcessor.constructor | src/etl/processor.py:56-58 | keeps the inputs and places the temporary directory inside the output directory |
| Processor.DataProcessor.LoadCadopMaster | src/etl/processor.py:141-194 | the master of the input files whose name mentions "cadop" |
| Processor.DataProcessor.ProcessAccountingFiles | src/etl/processor.py:219-303 | the accounting lines of the .zip inputs |
| Processor.DataProcessor.EnrichAndExport | src/etl/processor.py:392-446 | the outcome `EnrichOutcome` defines; both frames keep their contents when skipped and hold the trimmed keys otherwise |
| Processor.DataProcessor.Run | src/etl/processor.py:487-489 | the outcome of the run on the loaded master and accounting lines |
| LegacyProcessor.LegacyMasterSpec | src/processor.py:94-143 | the legacy master is empty exactly when nothing loaded or REG_ANS is missing; it is unique on REG_ANS, has CNPJ and RazaoSocial exactly when the renamed registry does, and never has Modalidade or UF |
| LegacyProcessor.LegacyKeyNotRenamed | src/processor.py:188-202 | an accounting member has REG_ANS after the rename exactly when its normalised header already had it |
| LegacyProcessor.CleanedSpec | src/processor.py:261-265 | the lines reaching the sum are those with a balance matched to a registry row with a CNPJ and a name; their total is what those lines carry |
| LegacyProcessor.ConsolidateKeys | src/processor.py:269-271 | one row per (CNPJ, RazaoSocial, Trimestre, Ano) of a line with both a CNPJ and a name |
| LegacyProcessor.ConsolidateValues | src/processor.py:269-271 | each row holds the sum of its identity's balances |
| LegacyProcessor.ConsolidateTotal | src/processor.py:269-271 | the consolidation keeps the total of the groupable lines |
| LegacyProcessor.SortedExport | src/processor.py:274 | the sort keeps rows, keys and total, and the result is sorted by (Ano, Trimestre, RazaoSocial) |
| LegacyProcessor.ExportedRowsSpec | src/processor.py:252-274 | a legacy export is sorted and has one row per identity of an accounting line that reached the sum |
| LegacyProcessor.ExportedTotal | src/processor.py:252-274 | the legacy export adds up to the balances of exactly the lines that reached the sum |
| LegacyProcessor.NoMatchNothingExported | src/processor.py:261-265 | when no line matches the registry, the legacy export is empty |
| LegacyProcessor.UnmatchedLineContrast | src/processor.py:265 | an unmatched line is exported under the sentinel CNPJ by the current processor and never reaches the legacy sum |
| LegacyProcessor.SharedOperatorContrast | src/processor.py:269-271 | two registry codes of one CNPJ and name in one quarter make one legacy row but two current rows |
| LegacyProcessor.DataProcessor.constructor | src/processor.py:30-32 | keeps the inputs and places the temporary directory inside the output directory |
| LegacyProcessor.DataProcessor.LoadCadopMaster | src/processor.py:94-143 | the REG_ANS-keyed master of the "cadop" input files |
| LegacyProcessor.DataProcessor.ProcessAccountingFiles | src/processor.py:157-236 | the REG_ANS-keyed accounting lines of the .zip inputs |
| LegacyProcessor.DataProcessor.EnrichAndExport | src/processor.py:252-274 | the outcome the legacy `EnrichOutcome` defines; both frames keep their contents when skipped and hold the trimmed keys otherwise |
| LegacyProcessor.DataProcessor.Run | src/processor.py:298-302 | the legacy outcome on the loaded master and accounting lines |

## Left out

- Reading files: CSV versus Excel, the UTF-8 to Latin-1 fallback, and the
  `sep=";"` parser are inside the `Storage` oracle (`readTable`,
  `openMember`).
- Side effects: extracting archive members to disk, deleting them, and
  recreating and removing the temporary directory are not modelled.
- Output: writing and zipping the CSV outputs (quoting, `;`, decimal
  comma, `utf-8-sig`) and logging are left out. The model returns the
  exported columns, rows and report as values.
- Numbers: floating point is left out; balances are exact reals. The
  sample standard deviation is an uninterpreted parameter, except for
  the 0.0 that a single observation gets.
- Locale.ParseNumber: it accepts optional signs, digits and one decimal
  point only. pd.to_numeric's exponents, surrounding blanks, "inf" and
  "nan" spellings are not recognised and read as null.
- Text.Upper: it maps ASCII and the Latin-1 letters whose upper case is
  in Latin-1 only; µ, ß and ÿ are left unchanged. Full Unicode
  case mapping and normalisation are left out.
- Validator.OnlyDigits: only the ASCII digits 0-9 count as digits.
  Python's `\D` on a `str` keeps every Unicode decimal digit, such as
  the Arabic-Indic ones.
- Validator.NonDigitIgnored: a Unicode decimal digit outside 0-9 is
  ignored by the model, but it changes the source's verdict. The lemma
  holds of the source only for characters that are not Unicode digits.
- Period.FindYear: `\d` in `(20\d{2})` is read as 0-9 only. A file name
  whose year uses other Unicode digits gets a year in Python and none
  in the model.
- Duplicate columns: when two source columns get the same name, the
  model reads the first. pandas would keep both and fail later.
- Tie order: the relative order of rows with equal sort keys, and the
  order of groups, are not claimed to match pandas. Groups come in
  first-appearance order and the sort is an insertion sort.
- Column order: only the master's kept columns are tracked, not the
  column order pd.concat produces.
- Failing runs: a KeyError is an outcome (`Crashed`). What was written
  before it is not modelled, such as a partly flagged frame or an
  aggregation report already on disk.
- Processor.DataProcessor.EnrichAndExport and
  LegacyProcessor.DataProcessor.EnrichAndExport: they use the corrected
  merge (see Findings), and the current one also uses the corrected
  empty-table handling. `Enrichment.Merge` and
  `Processor.EnrichOutcomeAsWritten` keep the code as written.
- Processor.DataProcessor.Run and LegacyProcessor.DataProcessor.Run:
  they end in the EnrichAndExport above. On the Findings inputs
  (registry codes that differ only by blanks; for the current run also
  no line with a balance) their outcome is the corrected one, not what
  run() as written does.
- main.py, the scraper and the API are not part of this model.

## Findings

| source | as written | input that shows it | evidently intended | confidence | as-written member | corrected member |
|---|---|---|---|---|---|---|
| src/etl/processor.py:185-187, 398-401 (and src/processor.py:136, 258-261) | the master is deduplicated on the raw registry code, but both key columns are trimmed only afterwards, just before the left join | registry codes "1" and "1 " with one accounting line "1" and a balance of 5.0: the join yields two rows and the consolidated total is 10.0 | one registry row per trimmed code, so that the join neither repeats lines nor inflates totals | not executed; high | Enrichment.Merge, Enrichment.SplitKeyDuplicatesLine | Enrichment.MergeUnique, Enrichment.MergeUniqueSpec |
| src/etl/processor.py:411-437, src/etl/validator.py:79-80 | when every balance is null or zero, the consolidated frame is empty; validation returns it without flag columns, and reading Registro_Conforme raises KeyError | one accounting line with a balance of "0,00" and a matching registry row that has RazaoSocial and UF | export the empty table and report, with zero invalid rows | not executed; high | Processor.EnrichOutcomeAsWritten, Processor.NothingToConsolidateCrashesAsWritten | Processor.EnrichOutcome, Processor.NothingToConsolidateExported |
