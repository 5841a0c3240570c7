# tradee trade logger, modelled in Dafny

`script.js` takes a free-text trade description, asks a generative-AI service
to turn it into a JSON object, and appends that object as one row of
`trades.csv`. This project models the deterministic part of that flow:

- **Row serialiser** (`CsvRow`): `addTradeToCSV` joins the eight fields of a
  trade with commas and wraps only the notes in double quotes, doubling every
  embedded quote, as in rules 6 and 7 of section 2 of RFC 4180. A reader for
  such rows (`DecodeRow`), which follows section 2 of RFC 4180, is the
  serialiser's partner. With it the model proves that the notes column reads
  back exactly. It also proves that the whole row reads back exactly when
  none of the seven unescaped columns holds a comma, a double quote or a
  line break.
- **Parse with fallback** (`JsonExtract`): the AI reply is parsed directly;
  if that throws, the first match of `/\{[\s\S]*\}/` is parsed instead; if
  there is no match, the step fails with "Failed to parse AI response as
  JSON". The match is specified independently, as the leftmost and then
  longest `{…}` span, and proved to run from the first `{` through the last `}`.
- **The CSV file** (`TradeLog`): a class `TradeCsv` holds the file as
  `Option<string>` (None: the file does not exist). Its methods are
  `initializeCSV`, `addTradeToCSV` and one invocation of `main`. The pure
  functions `AfterRun` and `Runs` describe the file after a series of
  invocations. The lemmas prove three things: header creation is idempotent,
  invocations only append, and from a missing file a series of invocations
  leaves one header followed by the rows of the successful runs, in call order.

Foreign code is a parameter, not a specification:

- `reply: Option<string>` is the AI call's text; None means the call threw.
- `parse: string -> Option<V>` is `JSON.parse`; None means it threw.
- `render: V -> Option<Trade>` reads the parsed object's fields and renders them
  as text, the way the array literal and `join` do. None means a read threw, for
  example on a `null` object or on notes that are not a string (`.replace`
  is then not a function).

Behaviour of the code worth noting:

- When a brace span is found but `JSON.parse` throws on it, the error that
  propagates is that `SyntaxError`, not "Failed to parse AI response as JSON".
  The model keeps the two apart as `SpanSyntaxError` and `NoJsonFound`.
- `initializeCSV` runs before the AI call, so a failed invocation still
  creates the header.
- `appendFileSync` creates a missing file, so `AddTradeToCsv` on a missing
  file yields just the row.

## Model

| member | source | states |
|---|---|---|
| `CsvRow.EscapeQuotes` | script.js:75 | the escaped notes are at least as long as the notes and at most twice as long; `EscapeCounts` and `UnescapeEscape` give their meaning |
| `CsvRow.EscapeCounts` | script.js:75 | every `"` is doubled and nothing else changes: the length grows by the number of quotes, the quote count doubles, and every other character occurs as often as before |
| `CsvRow.Join` | script.js:76 | joined parts are as long as the parts together plus one separator between each pair of neighbours; `DecodeJoin` and `DecodeFields` show the split gives the parts back |
| `CsvRow.QuoteNotes` | script.js:75 | the notes column is at least two characters long and begins and ends with `"` |
| `CsvRow.UnescapeQuotes` | script.js:75 | any text the RFC 4180 reading of a quoted field accepts is exactly the escaping of what it returns |
| `CsvRow.UnquoteField` | script.js:75 | a column that reads back as some notes is exactly the notes column of those notes |
| `CsvRow.UnescapeEscape` | script.js:75 | replacing each `""` of the escaped notes by `"` gives back the notes exactly |
| `CsvRow.QuoteRoundTrip` | script.js:75 | stripping the outer quotes and undoubling gives back the notes; a column reads back as given notes if and only if it is their notes column |
| `CsvRow.Row` | script.js:67-76 | the row is never empty and ends with the closing quote of the notes column |
| `CsvRow.RowIsNotHeader` | script.js:12-17 | no appended row, with its newline, equals the header line |
| `CsvRow.TakeField` | script.js:76 | splitting at the first comma gives a comma-free field and the rest that rebuild the input; it fails exactly when there is no comma |
| `CsvRow.DecodeFields` | script.js:76 | splitting off n comma-terminated fields gives n comma-free fields and a rest that `join(',')` turns back into the input |
| `CsvRow.DecodeRow` | script.js:67-76 | a line that reads as a trade is exactly that trade's row, and its seven plain columns hold no comma, double quote or line break |
| `CsvRow.DecodeJoin` | script.js:76 | comma-free fields joined with a tail split back into those fields and that tail |
| `CsvRow.RowSplitsAtSeventhComma` | script.js:67-76 | when the seven plain columns hold no comma, the text before the 7th comma of the row splits into exactly those columns and the rest is the quoted notes |
| `CsvRow.RowRoundTrip` | script.js:67-76 | the row reads back as the trade if and only if none of the seven unescaped columns holds a comma, a double quote, a carriage return or a line feed |
| `CsvRow.SymbolWithCommaMisreads` | script.js:69 | a symbol holding a comma, written unescaped, means the row no longer reads back as the trade (as a rule it does not read at all) |
| `JsonExtract.FirstIndex` | script.js:53 | gives the position of the first occurrence of a character, or none when the character does not occur |
| `JsonExtract.LastIndex` | script.js:53 | gives the position of the last occurrence of a character, or none when the character does not occur |
| `JsonExtract.MatchSpan` | script.js:53 | the span from the first `{` through the last `}` is the leftmost and then longest match of `\{[\s\S]*\}`; there is no span exactly when the pattern matches nowhere |
| `JsonExtract.BraceSpan` | script.js:53-54 | the matched text begins with `{`, ends with `}` and is the reported match; none exactly when nothing matches |
| `JsonExtract.ReportedMatchUnique` | script.js:53 | the leftmost-longest match is unique |
| `JsonExtract.Extract` | script.js:49-58 | a successful direct parse is returned without the fallback; "Failed to parse AI response as JSON" exactly when the direct parse fails and nothing matches; the span's syntax error exactly when the direct parse fails and the reported match does not parse; a fallback result is the parse of the reported match |
| `TradeLog.ProcessTrade` | script.js:20-63 | a failed AI call fails the step; a reply that parses directly yields its value; for a reply, the step succeeds exactly when the extractor does, with the extractor's value, and otherwise fails with the extractor's error; the no-JSON error comes exactly when the reply neither parses nor contains a brace span |
| `TradeLog.Outcome` | script.js:82-104 | a failed AI call writes nothing; a trade is written exactly when extraction succeeds and the parsed object renders as a trade, and it is that rendering; `NotATrade` exactly when extraction succeeds and rendering throws; an extraction failure comes back as `ExtractFailed` carrying the extractor's own error |
| `TradeLog.Initialized` | script.js:12-17 | the file exists afterwards and only extends the old one; a missing file then holds exactly the header line; an existing file is unchanged; `InitializeIdempotent` adds idempotence |
| `TradeLog.Appended` | script.js:78 | the file exists afterwards, the old text is a prefix of the new, and what follows it is exactly the row and a newline |
| `TradeLog.AfterRun` | script.js:82-104 | after one invocation the file exists and only extends both the old file and what initialisation left; `AfterRunAppends` says exactly what is appended |
| `TradeLog.Runs` | script.js:82-104 | a series of invocations only extends the file, and the file exists after at least one; `RunsOnlyAppend` and `RunsFromMissingFile` say exactly what is appended |
| `TradeLog.InitializeIdempotent` | script.js:12-17 | a missing file is created holding exactly the header line, an existing file is left unchanged, and initialising twice equals initialising once |
| `TradeLog.AfterRunAppends` | script.js:82-104 | one invocation leaves what initialisation left plus the written row and newline, and it leaves the initialised file unchanged exactly when processing failed |
| `TradeLog.RunsOnlyAppend` | script.js:78 | invocations on an existing file keep its text and append, per successful run and in call order, its row followed by a newline |
| `TradeLog.RunsFromMissingFile` | script.js:82-104 | from a missing file, any non-empty series of invocations leaves one header line followed by the rows of the successful runs, in call order |
| `TradeLog.TradeCsv.InitializeCsv` | script.js:12-17 | writes the header into a missing file and leaves an existing file unchanged |
| `TradeLog.TradeCsv.AddTradeToCsv` | script.js:66-79 | the new file is the old text followed by the row and a newline; the earlier text is unchanged |
| `TradeLog.TradeCsv.Run` | script.js:82-104 | initialises, processes the reply, and appends a row only when every step succeeded; the outcome says which step failed |
| `TradeLog.TwoRunsFromMissingFile` | script.js:82-104 | two invocations on a missing file leave the header followed by the rows of the successful runs in call order, or only the header when both fail |

## Left out

- Prompt building and the Gemini client (`getGenerativeModel`, `generateContent`; script.js:6, 22-46) are left out. They are a network call and a string template. The call's text is the parameter `reply`.
- `JSON.parse` is left out. It is the parameter `parse`; the model does not specify JSON.
- Reading the parsed object's fields and JavaScript's number-to-string formatting are left out. They are the parameter `render`, and the eight columns are taken as already-rendered text. The object is not checked against the expected shape, as in the source.
- Console output, `JSON.stringify` of the result, `process.argv`, the usage message and `process.exit` (script.js:88-113) are left out. They are terminal and process I/O.
- Real filesystem calls are left out, apart from their effect on the file's text: `existsSync`, `writeFileSync`, `appendFileSync`, and the path built by `path.join`. Failures of these calls, such as a permission error, are not modelled.
- Races between separate processes writing the same file are left out, because that is concurrency.
- `TradeLog.RunsFromMissingFile`: "one header line" is stated as the file's structure: the header, then each row followed by a newline. It is not stated as a count of header-looking lines. A row may span several lines, because the quoted notes and the seven unescaped columns can all hold line breaks.
- Strings are sequences of Unicode characters, while JavaScript uses UTF-16 code units. This makes no difference to where `{`, `}`, `"`, `,` and newline fall.
