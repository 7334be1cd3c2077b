# Evionica to CAPZLOG logbook conversion, in Dafny

This project models the conversion of a pilot logbook exported by Evionica into the column layout
that CAPZLOG imports. The model covers `convert-evionica-csv-to-capzlog.rb` and proves properties of it.

- A source row is a Ruby hash with symbol keys (`:engine_time`). It is modelled as its entries in
  insertion order, `Cells.SourceRow`.
- Renaming turns the known keys into target labels, which are strings (`"Total Time"`). The
  working row therefore mixes both kinds of key, so a `Cells.Key` is `Sym(name)` or `Str(name)`.
- A cell value is a string, an integer (the IFR counters default to `0`) or nil. `Cells.Get`
  returns nil for an absent key, like `Hash#[]`.

The modules follow the script:

- `Tables`: the constant tables (`EXPECTED_HEADERS`, `HEADER_MAPPING`, `AIRCRAFT_TYPE_MAPPING`,
  `AERODROME_CODE_MAPPING`, `CALCULATED_HEADERS`, `ADDITIONAL_EMPTY_HEADERS`) and facts about them.
- `Rules`: the five bang-methods `convert_row` applies, each as a pure function from the row before
  to the row after. Each contract states which keys the rule may change.
- `Convert`: `convert_row`. The renaming is `Hash#transform_keys` with last-wins on colliding keys.
  Then come the rules in order, then the projection onto the 29 target columns.
- `Headers`: `convert_headers`. The script defines it but never calls it.
- `Logbook`: the record loop of `convert_csv`, as written and as evidently intended (see Findings).

Behaviour kept as the code has it:

- An aircraft type missing from the table becomes nil. A translated type is not a type name, so
  translating twice loses it (`Rules.UpdateAircraftTypeTwiceLosesType`).
- `From` and `To` are always stored. They are either translated or left as they were.
- The supervision flag is read under the symbol `:supervision`. Renaming passes that key through
  untouched, because `supervision` is not in `HEADER_MAPPING`.
- `convert_row` renames through `key.to_sym`, so a string key with a mapped name is renamed too.
  `convert_headers` looks up `HEADER_MAPPING[header]` directly, so there only symbols are renamed.
- `convert_headers` inserts `SE Time` twice: once by itself, and once as the first entry of
  `CALCULATED_HEADERS`.

## Model

| member | source | states |
|---|---|---|
| Cells.Get | convert-evionica-csv-to-capzlog.rb:102 | `row[k]` of a hash: the stored value, or nil for an absent key; `Convert.Project` states the projection through it, nil included |
| Tables.HeaderSourcesInvertMapping | convert-evionica-csv-to-capzlog.rb:13-33 | every source column's label leads back to that source column |
| Tables.HeaderMappingInjective | convert-evionica-csv-to-capzlog.rb:13-33 | no two source columns are renamed to the same label |
| Tables.HeaderMappingTargetsExpected | convert-evionica-csv-to-capzlog.rb:6-33 | every label the renaming produces is one of the 29 target columns |
| Tables.AerodromeTargetsAreNotSources | convert-evionica-csv-to-capzlog.rb:44-48 | no translated aerodrome code is itself translated again |
| Tables.AircraftCodesAreNotNames | convert-evionica-csv-to-capzlog.rb:35-42 | no short type code is itself a full type name |
| Tables.LabelsAreNotSourceNames | convert-evionica-csv-to-capzlog.rb:13-33 | no target label is itself the name of a source column |
| Tables.RuleColumnsShape | convert-evionica-csv-to-capzlog.rb:50-58 | five derived and six defaulted columns, with SE Time the first derived one and nowhere else |
| Tables.AdditionalEmptyLabels | convert-evionica-csv-to-capzlog.rb:52-57 | the keys of the defaulted columns in their written order: ME, MP, Copi and Instructor Time, then the two IFR counters |
| Tables.ExpectedHeadersCoverRuleColumns | convert-evionica-csv-to-capzlog.rb:6-58 | every derived and every defaulted column is a target column |
| Tables.ExpectedHeaderPositions | convert-evionica-csv-to-capzlog.rb:6-11 | the layout has 29 columns, with Type, From, To and PIC Name at positions 2, 3, 4 and 19 |
| Tables.ExpectedTimePositions | convert-evionica-csv-to-capzlog.rb:6-11 | the positions of the total, derived and defaulted time columns and of the IFR counters |
| Tables.HeaderMappingSamples | convert-evionica-csv-to-capzlog.rb:13-33 | the labels of the columns a sample flight uses; `supervision` has none |
| Tables.TranslationSamples | convert-evionica-csv-to-capzlog.rb:35-48 | Cessna 172 becomes C172, LRMM becomes LRBM, ATCJ becomes DZM |
| Rules.UpdateAircraftType | convert-evionica-csv-to-capzlog.rb:106-108 | a known type becomes its code; a present unknown type is stored as nil; a nil type leaves the row unchanged; no other key changes |
| Rules.TypeCode | convert-evionica-csv-to-capzlog.rb:107 | a known type name gives its code; anything else, nil included, gives nil; the result is nil or a code of the table |
| Rules.UpdateAircraftTypeRange | convert-evionica-csv-to-capzlog.rb:106-108 | afterwards the type is nil, unchanged, or one of the table's codes |
| Rules.UpdateAircraftTypeNotIdempotent | convert-evionica-csv-to-capzlog.rb:106-108 | applied twice, Cessna 172 becomes C172 and then nil |
| Rules.UpdateAircraftTypeTwiceLosesType | convert-evionica-csv-to-capzlog.rb:106-108 | for every row with a known type, applying the rule twice leaves the type nil |
| Rules.UpdateAerodromeCodes | convert-evionica-csv-to-capzlog.rb:110-113 | From and To are each translated when the table knows them and kept otherwise; no other key changes |
| Rules.AerodromeCode | convert-evionica-csv-to-capzlog.rb:111-112 | a known code gives its translation, anything else is returned as it is; a translatable result is the input itself |
| Rules.AerodromeCodeIdempotent | convert-evionica-csv-to-capzlog.rb:111-112 | looking up an already translated value changes nothing |
| Rules.UpdateAerodromeCodesIdempotent | convert-evionica-csv-to-capzlog.rb:110-113 | translating the aerodromes a second time changes nothing |
| Rules.AddSingleEngineTime | convert-evionica-csv-to-capzlog.rb:115-117 | SE Time equals Total Time; no other key changes |
| Rules.AddDefaultEmptyValues | convert-evionica-csv-to-capzlog.rb:119-121 | the four unused time columns hold "0:00" and the two IFR counters hold 0; no other key changes |
| Rules.RoleOf | convert-evionica-csv-to-capzlog.rb:123-152 | each of the four roles holds exactly when its condition on the PIC name and the supervision flag holds |
| Rules.RoleOfReadsNameAndSupervision | convert-evionica-csv-to-capzlog.rb:124-137 | two rows that agree on the PIC name and the supervision flag have the same role |
| Rules.Credit | convert-evionica-csv-to-capzlog.rb:124-151 | every time column gets the total or "0:00"; dual time equals SPIC time; for a non-zero total, PIC, SPIC and PICUS time hold it exactly for the roles that earn it |
| Rules.AddPicTimes | convert-evionica-csv-to-capzlog.rb:123-152 | the four time columns hold the total time credited as the role dictates, "0:00" elsewhere; no other key changes |
| Rules.AddPicTimesKeys | convert-evionica-csv-to-capzlog.rb:123-152 | all four time columns are stored, and no other key is added or removed |
| Rules.PicAndDualExclusive | convert-evionica-csv-to-capzlog.rb:123-152 | the total time is credited as both PIC and dual time only when it is "0:00" |
| Convert.TransformKeys | convert-evionica-csv-to-capzlog.rb:94 | the result holds exactly the renamed keys, each with the value of the last entry renamed to it |
| Convert.RenameKeys | convert-evionica-csv-to-capzlog.rb:94 | the renaming of a source row; `Convert.TransformKeys` and `Convert.RenameKeysOfSymbolRow` state its keys and values |
| Convert.RenameKey | convert-evionica-csv-to-capzlog.rb:94 | a key whose name is a source column becomes that column's label as a string, symbol or string alike; any other key stays; no result names a source column |
| Convert.RenameKeyIdempotent | convert-evionica-csv-to-capzlog.rb:94 | renaming a renamed key changes nothing |
| Convert.RenameKeyInjectiveOnSymbols | convert-evionica-csv-to-capzlog.rb:94 | distinct symbols are renamed to distinct keys |
| Convert.RenameKeysOfSymbolRow | convert-evionica-csv-to-capzlog.rb:94 | in a row of distinct symbols, every entry's value can be found under its renamed key |
| Convert.TransformKeysSnoc | convert-evionica-csv-to-capzlog.rb:94 | renaming a row with one more entry stores that entry over the shorter row's result |
| Convert.Project | convert-evionica-csv-to-capzlog.rb:102 | one cell per listed column, holding the row's value there or nil |
| Convert.TranslateEffect | convert-evionica-csv-to-capzlog.rb:96-97 | the two translation rules change Type, From and To as translated, and nothing else |
| Convert.TranslateKeepsCrew | convert-evionica-csv-to-capzlog.rb:96-97 | the translation rules keep the total time, the PIC name and the supervision flag |
| Convert.DeriveFrame | convert-evionica-csv-to-capzlog.rb:98-100 | the last three rules leave every column they do not write alone |
| Convert.DeriveSingleEngine | convert-evionica-csv-to-capzlog.rb:98-100 | after the last three rules SE Time repeats Total Time, which is unchanged |
| Convert.DeriveDefaults | convert-evionica-csv-to-capzlog.rb:98-100 | after the last three rules the defaulted columns hold their constants |
| Convert.DeriveCredit | convert-evionica-csv-to-capzlog.rb:98-100 | after the last three rules the time columns credit the total by the role the input row describes |
| Convert.ApplyRules | convert-evionica-csv-to-capzlog.rb:96-100 | the five rules in order; `Convert.ApplyRulesFrame`, `ApplyRulesTranslations`, `ApplyRulesDefaults` and `ApplyRulesCredit` state what it writes and keeps |
| Convert.ApplyRulesFrame | convert-evionica-csv-to-capzlog.rb:94-102 | every key no rule writes, symbols included, keeps its renamed value |
| Convert.ApplyRulesTranslations | convert-evionica-csv-to-capzlog.rb:96-98 | after all rules, Type, From and To are translated, Total Time is kept and SE Time repeats it |
| Convert.ApplyRulesDefaults | convert-evionica-csv-to-capzlog.rb:99-100 | after all rules the defaulted columns hold their constants |
| Convert.ApplyRulesCredit | convert-evionica-csv-to-capzlog.rb:96-100 | after all rules the time columns credit the renamed row's total by the renamed row's role |
| Convert.ProjectCopiesThrough | convert-evionica-csv-to-capzlog.rb:102 | reading any columns out of the rules' result gives the renamed values of every column no rule writes |
| Convert.ConvertRow | convert-evionica-csv-to-capzlog.rb:93-104 | 29 cells; untouched columns copied from the renamed row; type and aerodromes translated; SE Time equals Total Time; defaults in place; total credited by role |
| Convert.SampleFlightRenamedInOrder | convert-evionica-csv-to-capzlog.rb:94 | renaming the sample flight stores its six values under the target labels in entry order |
| Convert.SampleFlightRenamedRoute | convert-evionica-csv-to-capzlog.rb:94 | the renamed sample flight holds its type and aerodromes under Type, From and To |
| Convert.SampleFlightRenamedCrew | convert-evionica-csv-to-capzlog.rb:94 | the renamed sample flight holds its time, pilot and supervision flag |
| Convert.SoloSampleFlight | convert-evionica-csv-to-capzlog.rb:93-152 | an unsupervised flight of the user converts to C172, LRBM, DZM, with all 1:30 as SE and PIC time |
| Convert.StudentSampleFlight | convert-evionica-csv-to-capzlog.rb:93-152 | a flight with someone else as PIC logs 1:30 as SPIC and dual time and no PIC or PICUS time |
| Headers.MapHeaders | convert-evionica-csv-to-capzlog.rb:80 | each header is renamed in place; only mapped symbols change |
| Headers.MapHeader | convert-evionica-csv-to-capzlog.rb:80 | a mapped symbol becomes its label as a string; every other header, strings included, stays |
| Headers.SplatBlock | convert-evionica-csv-to-capzlog.rb:84 | the inserted list is the first label, then the derived labels, then the defaulted labels, each in order |
| Headers.InsertedBlock | convert-evionica-csv-to-capzlog.rb:84 | `SplatBlock` of `SE Time`, the derived and the defaulted labels; `Headers.InsertedBlockShape` and `InsertedBlockLabels` state its contents |
| Headers.IndexOf | convert-evionica-csv-to-capzlog.rb:82 | nil exactly when the key is absent, otherwise the position of its first occurrence |
| Headers.InsertAfterFirst | convert-evionica-csv-to-capzlog.rb:82-88 | the block is inserted right after the first marker, or appended when there is none |
| Headers.InsertAfterFirstKeepsOrder | convert-evionica-csv-to-capzlog.rb:82-88 | removing the block gives back the original sequence; the block follows a marker or ends the result |
| Headers.ConvertHeaders | convert-evionica-csv-to-capzlog.rb:79-91 | the result has twelve more headers than the input |
| Headers.InsertedBlockShape | convert-evionica-csv-to-capzlog.rb:84 | the inserted block has twelve columns, and only the first two are SE Time |
| Headers.ConvertHeadersPlacesBlock | convert-evionica-csv-to-capzlog.rb:82-87 | the block follows the first header that renames to Total Time, and is appended exactly when none does |
| Headers.ConvertHeadersKeepsOrder | convert-evionica-csv-to-capzlog.rb:79-91 | removing the block gives back the renamed headers in order; the block follows a Total Time or ends the result |
| Headers.ConvertHeadersRepeatsSeTime | convert-evionica-csv-to-capzlog.rb:84-87 | the result holds SE Time two more times than the renamed headers |
| Headers.InsertedBlockLabels | convert-evionica-csv-to-capzlog.rb:84 | every inserted column is a derived or a defaulted one |
| Headers.InsertedBlockHoldsRuleColumns | convert-evionica-csv-to-capzlog.rb:84 | every derived and every defaulted column is inserted |
| Headers.MapHeadersWithinLayout | convert-evionica-csv-to-capzlog.rb:80 | renamed mapped symbols are target columns |
| Headers.InsertedBlockWithinLayout | convert-evionica-csv-to-capzlog.rb:84 | the inserted columns are target columns |
| Headers.ConvertHeadersWithinLayout | convert-evionica-csv-to-capzlog.rb:79-91 | when every header is a mapped symbol, every converted header is a target column |
| Headers.MapHeadersCoverMapping | convert-evionica-csv-to-capzlog.rb:80 | when every mapped symbol is present, every label of the renaming appears |
| Headers.ConvertHeadersCoverColumns | convert-evionica-csv-to-capzlog.rb:79-91 | when every mapped symbol is present, every renamed, derived and defaulted column appears |
| Logbook.WriteRows | convert-evionica-csv-to-capzlog.rb:70-73 | the loop as written writes one record per source row |
| Logbook.ConvertCsvAsWritten | convert-evionica-csv-to-capzlog.rb:68-77 | as written, the output has exactly as many records as the source has rows |
| Logbook.WriteRowsAfterHeader | convert-evionica-csv-to-capzlog.rb:70-73 | once a record has been written, every remaining row is converted in order |
| Logbook.AsWrittenDropsFirstRow | convert-evionica-csv-to-capzlog.rb:71 | as written, the output equals the intended output for every row but the first |
| Logbook.AsWrittenLosesSingleFlight | convert-evionica-csv-to-capzlog.rb:71 | as written, a one-flight source yields just the header; the intended output also holds the flight |
| Logbook.AsWrittenEmptyHasNoHeader | convert-evionica-csv-to-capzlog.rb:68-77 | as written, an empty source yields no records at all; the intended output holds the header |
| Logbook.ConvertRows | convert-evionica-csv-to-capzlog.rb:70-73 | record i is the conversion of row i |
| Logbook.ConvertCsv | convert-evionica-csv-to-capzlog.rb:68-77 | the header, then the conversion of every row in order |
| Logbook.ConvertLogbookAsWritten | convert-evionica-csv-to-capzlog.rb:68-77 | the program's output as written is the intended output for the rows after the first |
| Logbook.ConvertLogbook | convert-evionica-csv-to-capzlog.rb:68-77 | the intended output: the header first, then one record per row |

## Left out

- Prompting for the two names and the file paths, the default paths, and the success message
  (lines 154-173) are console I/O. The names are parameters of the model.
- Opening and writing files, and parsing the source with SmarterCSV (lines 61-69), are not
  modelled. This covers quoting, encoding, the downcasing and symbolising of header names, and the
  conversion of numeric-looking cells. The model starts from parsed rows.
- SmarterCSV's chunks are flattened into one sequence of rows. The loop's `index` is unused.
- Floats and booleans are not cell values of the model. Time values such as "1:30" stay opaque
  strings, because the script only copies them and never does arithmetic on them.
- Logbook.WriteRows: `csv.lineno` is taken to be the number of records written so far. That is
  how Ruby's CSV library counts for a file opened for writing, and the library is not part of
  this model.
- Headers.ConvertHeadersCoverColumns: it does not prove that the converted headers are exactly the
  29 target columns as a set. It proves only inclusion both ways through the renamed, derived and
  defaulted columns, with `Headers.ConvertHeadersWithinLayout`. The remaining table fact, that
  every target column is one of these, is not proved.
- Logbook.ConvertLogbook: it states the length and the leading header. Per-row contents are stated
  on `Logbook.ConvertCsv`, which it applies to `Convert.ConvertRow` with the two names fixed.
- Headers.ConvertHeaders: its own contract gives only the length. The placement, order and contents
  of the inserted block are stated by `Headers.InsertAfterFirst` and the `ConvertHeaders*` lemmas.

## Findings

| source | as written | input that shows it | evidently intended | confidence | as-written member | corrected member |
|---|---|---|---|---|---|---|
| convert-evionica-csv-to-capzlog.rb:71 | while nothing has been written, the header is written and `next` skips the row at hand, so the header takes the place of the first flight | a source with one flight: the output holds the header and no flight; a source with no rows: the output holds no header either | write the header once, then convert every row | not executed; depends on `CSV#lineno` counting written lines | Logbook.ConvertCsvAsWritten, Logbook.AsWrittenDropsFirstRow | Logbook.ConvertCsv |
