# csv2ics in Dafny

csv2ics reads a CSV file and writes one iCalendar (RFC 5545) file per row.
It has five columns: `organizer`, `start_time`, `end_time`, `summary` and
`description`. This project models what happens between decoding the CSV
and writing the files, and proves properties of it:

- **Row normalisation** (`process_csv`). Each decoded row becomes an
  `EventData`. The row gets a generated id. Every `-` and `:` is deleted
  from the start and end time stamps. Organizer, summary and description
  are copied unchanged. The first row that fails to decode stops the loop
  with its error.
- **Document construction** (the first half of `create_calendar_event`).
  The model has mutable `Event` and `ICalendar` builders, filled by seven
  `push` calls and one `add_event`. The result is a `Calendar` value: VERSION
  `2.0`, a company PRODID, and one VEVENT with a fixed, ordered property list.
- **Save path** (`create_calendar_event`, line 111). The path is the output
  directory, then the summary with `/` and `\` deleted, then `.ics`.
- **Driver** (the conversion branch of `main`). Rows are processed, then
  events are created in row order, and the run stops at the first error.

Modules: `CharFilter` (filter.dfy) is the character-deletion filter behind
both `replace` calls. `Events` (events.dfy) holds the records and
`process_csv`. `Ics` (ics.dfy) holds the document and its builders.
`Driver` (driver.dfy) holds the path, `create_calendar_event` and the
driver loop.

Some things are inputs to the model because they are random, external or
I/O:

- The GUIDs from `Uuid::new_v4` are a sequence supplied by the caller, and
  row i gets the i-th one. Uniqueness is only a hypothesis.
- `escape_text` of the `ics` crate is a function parameter
  `escape: string -> string`.
- What the file system does for the i-th event is a parameter
  `io: nat -> IoOutcome`: success, the directory cannot be created, or the
  save fails.
- The CSV decoder's output is a sequence of `Row`s. Each is `Decoded` or
  `Malformed`.

Three behaviours of the code that a reader might not expect:

- The description is escaped when the document is built
  (src/main.rs:105), not during normalisation. `EventData.description`
  holds the raw text.
- One might expect N rows to give N output files. But `save_file`
  overwrites, and two summaries that agree once `/` and `\` are deleted name
  the same file. `Directory` gives the files this run saved, path by path.
  `DirectoryOneFilePerSave` gives N files for N distinct path strings, and
  `CollidingSummaries` shows two rows that leave one file (`a/b` and `ab`).
- No separator is put between the output directory and the file name. The
  default `./events/` ends in one; a directory given as `./events` gives
  `./eventsStandup.ics` (`SavePathExamples`).

## Model

| member | source | states |
|---|---|---|
| CharFilter.Remove | src/main.rs:83-84 | the `replace` with a char set and `""`: the result is never longer than the input and none of its characters is in the set |
| CharFilter.Kept | src/main.rs:83-84 | reference definition of what the filter keeps: the increasing sequence of exactly those positions whose character is outside the set |
| CharFilter.RemoveSelectsKept | src/main.rs:83-84 | order preservation: the k-th output character is the input character at the k-th kept position, so the output is the input with the set's characters deleted and nothing else changed |
| CharFilter.RemoveConcat | src/main.rs:83-84 | filtering a concatenation is the concatenation of the filtered parts |
| CharFilter.RemoveUnchanged | src/main.rs:83-84 | the filter returns its input unchanged if and only if no character of the set occurs in it |
| CharFilter.RemoveIdempotent | src/main.rs:83-84 | applying the filter a second time changes nothing |
| CharFilter.RemoveCounts | src/main.rs:83-84 | every character outside the set occurs as often in the output as in the input; characters of the set occur zero times |
| Events.CompactTimestamp | src/main.rs:83-84 | the `replace(&['-', ':'], "")` on a time stamp; its properties are those of `CompactTimestampClean`, `CompactTimestampIdempotent` and `CompactTimestampOf` |
| Events.Normalize | src/main.rs:80-87 | the `EventData` built for one row and its id; `NormalizeAllFields` states it field by field |
| Events.CompactTimestampClean | src/main.rs:83-84 | a compacted start or end time contains no `-` and no `:` and is no longer than the input |
| Events.CompactTimestampIdempotent | src/main.rs:83-84 | compacting an already compact time stamp changes nothing |
| Events.CompactTimestampOf | src/main.rs:83-84 | `yyyy-mm-ddThh:mm:ss` pieces without punctuation compact to their plain concatenation |
| Events.CompactTimestampTemplateStart | src/main.rs:125 | the template row's start `2024-11-25T10:00:00` becomes `20241125T100000` |
| Events.CompactTimestampTemplateEnd | src/main.rs:125 | the template row's end `2024-11-25T12:00:00` becomes `20241125T120000` |
| Events.FirstFailure | src/main.rs:78-79 | the index of the first row that failed to decode, or the row count: every earlier row decoded, and the row there (if any) did not |
| Events.NormalizeAll | src/main.rs:77-91 | the events of a file whose rows all decoded: one per row, same length, the i-th being row i normalised with the i-th id |
| Events.NormalizeAllFields | src/main.rs:80-87 | event i carries the i-th id, row i's organizer, summary and description unchanged, and row i's start and end time compacted |
| Events.ProcessCsv | src/main.rs:72-93 | succeeds exactly when every row decodes, and then returns `NormalizeAll` of the rows: one event per row, in row order. Otherwise it returns the first failing row's error and no partial vector |
| Ics.ProdId | src/main.rs:96 | the PRODID string for a company; `CompanyOfProdId`, `ProdIdInjective` and `CalendarForShape` state its form and that it determines the company |
| Ics.CompanyOf | src/main.rs:96 | partial inverse of the PRODID format: whatever it recovers rebuilds the same PRODID, and it recovers something exactly for strings with the prefix and suffix |
| Ics.CompanyOfProdId | src/main.rs:96 | the company is recovered from the PRODID built for it |
| Ics.ProdIdInjective | src/main.rs:96 | different company names give different PRODIDs |
| Ics.PropertyNameTextInjective | src/main.rs:99-105 | the seven property kinds (an enumeration in the model; `Text()` is the RFC 5545 name each is written under) have pairwise distinct names |
| Ics.LookupSome | src/main.rs:99-105 | looking a property up by name finds a value exactly when a property of that name is present, and the value is that property's |
| Ics.LookupFirst | src/main.rs:99-105 | looking a property up by name finds the value of the first property carrying that name |
| Ics.EventProperties | src/main.rs:99-105 | the properties pushed onto the event, in push order; `CalendarForShape` states their names and order, `CalendarForReadBack` their values |
| Ics.CalendarFor | src/main.rs:96-107 | the document built for one row; `CalendarForShape` and `CalendarForReadBack` state its contents, and `BuildCalendar` is proved to produce it |
| Ics.CalendarForShape | src/main.rs:96-107 | VERSION is `2.0` and PRODID is `-//` + company + `//NONSGML PDA Calendar Version 1.0//EN`. There is exactly one event, with UID the id and DTSTAMP the start time. Its seven property names come in the fixed order, each name once |
| Ics.CalendarForReadBack | src/main.rs:97-105 | reading the event back by name gives ORGANIZER, DTSTART, DTEND, SUMMARY from the row, STATUS `CONFIRMED`, CATEGORIES `Ticket` and DESCRIPTION the escaped description |
| Ics.Event.constructor | src/main.rs:97 | `Event::new(guid, start_time)`: UID and DTSTAMP set, no properties yet |
| Ics.Event.Push | src/main.rs:99-105 | `event.push`: the property is appended after those already there; UID and DTSTAMP unchanged |
| Ics.ICalendar.constructor | src/main.rs:96 | `ICalendar::new`: version and PRODID set, no events |
| Ics.ICalendar.AddEvent | src/main.rs:107 | `add_event`: the event's current value is appended; version and PRODID unchanged |
| Ics.BuildCalendar | src/main.rs:96-107 | the sequence of builder calls yields exactly `CalendarFor(e, company, escape)`, the document whose shape and read-back the two lemmas above state |
| Driver.SavePath | src/main.rs:111 | the `format!` of the save path; `SavePathParts`, `SavePathSame` and the example lemmas state its form |
| Driver.SavePathParts | src/main.rs:111 | the path is the output directory exactly as given, then the filtered summary, then `.ics`. No `/` or `\` stands between the prefix and the suffix, and nothing else is added |
| Driver.SavePathSame | src/main.rs:111 | two summaries give the same path if and only if they agree once `/` and `\` are deleted |
| Driver.SavePathExamples | src/main.rs:111 | `./events/` with `Standup` gives `./events/Standup.ics`; `./events` gives `./eventsStandup.ics` (no separator is inserted) |
| Driver.SavePathStripsSlashes | src/main.rs:111 | summary `a/b\c` gives file name `abc.ics` |
| Driver.FileFor | src/main.rs:109-113 | the file a successful `create_calendar_event` writes: `CalendarFor` at `SavePath`; `CreateCalendarEvent` is proved to return it on success |
| Driver.IoError | src/main.rs:109-113 | the error of a failed directory creation (the directory) or save (the path); `CreatedInOrder` and `CreateCalendarEvent` report it |
| Driver.CreateCalendarEvent | src/main.rs:95-117 | on success it saves `CalendarFor` of the event at `SavePath(output_dir, summary)`. A failed directory creation is an I/O error for the directory, and a failed save one for the path |
| Driver.CreateEvents | src/main.rs:138-141 | creating the events in order and stopping at the first error leaves `CreatedInOrder`. The first saved files are the events' documents at their paths, one per event, in order. Every write before the stop succeeded. The run is done exactly when all were saved, otherwise it failed with the first failed write's error |
| Driver.CreatedInOrder | src/main.rs:138-141 | what the fail-fast loop leaves; `CreateEvents` is proved to establish it, and `CreatedInOrderDone` and `CreatedInOrderUids` state its consequences |
| Driver.CreatedInOrderDone | src/main.rs:138-141 | the run is done if and only if no write fails; a failed run stopped at the first failing write, every earlier write having succeeded, with exactly the files before it saved |
| Driver.CreatedInOrderUids | src/main.rs:138-141 | each saved document's UID is its event's id, so distinct ids give distinct UIDs |
| Driver.ConvertUids | src/main.rs:132-141 | after a conversion whose rows all decoded, row i's saved document has the i-th id (the `Uuid` of line 81) as UID, so pairwise distinct ids give pairwise distinct UIDs |
| Driver.Convert | src/main.rs:132-141 | A row that fails to decode gives that error, and no file is written. Otherwise the run is `CreatedInOrder` over `NormalizeAll` of the rows: row i's document at row i's path, in row order, stopping at the first failed write |
| Driver.Directory | src/main.rs:113 | of the files this run saved, the paths present are exactly the paths saved to |
| Driver.DirectoryLastWins | src/main.rs:113 | a path string holds the document saved to it last |
| Driver.DirectoryOneFilePerSave | src/main.rs:113 | when all save path strings differ, this run saved one file per saved row |
| Driver.CollidingSummaries | src/main.rs:111 | summaries `a/b` and `ab` share one path, so two rows leave one file, holding the second document |

## Left out

- Command-line parsing (`Args`, clap) and the choice between modes in `main` (src/main.rs:13-37, 120-128, 143-146): no logic beyond argument plumbing.
- The `--template` branch (src/main.rs:123-127): a fixed file write. Its sample row is used only in `CompactTimestampTemplateStart` and `CompactTimestampTemplateEnd`.
- Opening the input file (src/main.rs:132-133): I/O. The model starts from decoded rows.
- CSV decoding by the `csv` and `serde` crates (src/main.rs:73-79): library code that is not visible. Each row is given as decoded or malformed, with the decoder's message.
- `Uuid::new_v4` (src/main.rs:81): random generation. The ids are a parameter, and their uniqueness is a hypothesis of `CreatedInOrderUids` and `ConvertUids`.
- Property names are an enumeration (`PropertyName`); `Text()` gives the name each is written under in RFC 5545, but the document value carries the enumeration, not the text.
- `escape_text`, the serialisation of the document to text, and line folding by the `ics` crate (src/main.rs:2, 105, 113): foreign library. Escaping is a function parameter. The document is modelled as a value of names and values, not as text.
- `ensure_directory_exists` and `save_file` (src/main.rs:58-70, 109, 113): file system effects. Their success or failure is the `io` parameter. A saved file is recorded as a `SavedFile`; `Directory` maps each path this run saved to the document saved there last.
- Progress output with `println!`/`eprintln!` (src/main.rs:127, 130, 139, 145): console output.
- Driver.Directory: files already in the output directory before the run (from an earlier run, say) are not part of the map, and a save that fails leaves nothing there, although `save_file` may already have created or truncated the file at that path. Paths are compared as strings: a case-insensitive or normalising file system (the defaults on macOS and Windows) makes paths that differ only in letter case or Unicode form, such as `./events/Standup.ics` and `./events/standup.ics`, one file, so `DirectoryOneFilePerSave` and `DirectoryLastWins` describe the files on disk only where distinct strings name distinct files.
- Driver.CreateEvents: an I/O error carries the directory or file path it concerns, not the operating system's error value.
