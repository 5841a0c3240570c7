/**
 * The CSV file as `main` (script.js:82-104) changes it: `initializeCSV`
 * creates it with the header when it is missing, `processTrade` turns the
 * AI reply into an object, and `addTradeToCSV` appends one row.
 *
 * The file is `Option<string>`: None when it does not exist, otherwise its
 * contents. The AI call is the parameter `reply` (None when the call
 * threw), `JSON.parse` is `parse`, and the reads of the parsed object's
 * fields, with JavaScript's rendering of them as text, are `render` (None
 * when a read throws, as `.replace` does when the notes are not a string).
 */
module TradeLog {
  import opened Wrappers
  import opened CsvRow
  import opened JsonExtract

  /** Why one invocation of `main` wrote no row. */
  datatype RunError =
    | AiCallFailed                 // the AI call threw
    | ExtractFailed(ExtractError)  // the parse-with-fallback step threw
    | NotATrade                    // building the row from the parsed object threw

  /** The text in the file; a missing file reads as empty. */
  function Content(file: Option<string>): string
  {
    if file.Some? then file.value else []
  }

  /**
   * `after` only extends `before`: an existing file stays, and its text is
   * a prefix of the new text.
   */
  predicate Extends(before: Option<string>, after: Option<string>)
  {
    && (before.Some? ==> after.Some?)
    && |Content(before)| <= |Content(after)|
    && Content(after)[..|Content(before)|] == Content(before)
  }

  /** The file after `initializeCSV`. */
  function Initialized(file: Option<string>): (r: Option<string>)
    ensures r.Some? && Extends(file, r)
    ensures file.None? ==> Content(r) == HeaderLine
    ensures file.Some? ==> r == file
  {
    if file.None? then Some(HeaderLine) else file
  }

  /** The file after `appendFileSync(CSV_FILE, row + '\n')`, which creates a missing file. */
  function Appended(file: Option<string>, row: string): (r: Option<string>)
    ensures r.Some? && Extends(file, r)
    ensures Content(r)[|Content(file)|..] == row + "\n"
  {
    Some(Content(file) + row + "\n")
  }

  /** `processTrade`: the AI reply, then the parse-with-fallback step. */
  function ProcessTrade<V>(reply: Option<string>, parse: string -> Option<V>): (r: Result<V, RunError>)
    ensures reply.None? ==> r == Err(AiCallFailed)
    ensures reply.Some? && parse(reply.value).Some? ==> r == Ok(parse(reply.value).value)
    ensures r == Err(ExtractFailed(NoJsonFound)) <==>
      reply.Some? && parse(reply.value).None? && forall i, j :: !PatternMatchesAt(reply.value, i, j)
    ensures r.Ok? ==> reply.Some? && Extract(reply.value, parse) == Ok(r.value)
    ensures reply.Some? ==> (r.Ok? <==> Extract(reply.value, parse).Ok?)
    ensures reply.Some? && r.Err? ==> r == Err(ExtractFailed(Extract(reply.value, parse).error))
  {
    match reply
    case None => Err(AiCallFailed)
    case Some(text) =>
      match Extract(text, parse)
      case Err(e) => Err(ExtractFailed(e))
      case Ok(v) => Ok(v)
  }

  /** The trade one invocation of `main` writes, or why it writes none. */
  function Outcome<V>(reply: Option<string>, parse: string -> Option<V>, render: V -> Option<Trade>): (r: Result<Trade, RunError>)
    ensures reply.None? ==> r == Err(AiCallFailed)
    ensures r.Ok? <==>
      reply.Some? && Extract(reply.value, parse).Ok? && render(Extract(reply.value, parse).value).Some?
    ensures r.Ok? ==> render(Extract(reply.value, parse).value) == Some(r.value)
    ensures r == Err(NotATrade) <==>
      reply.Some? && Extract(reply.value, parse).Ok? && render(Extract(reply.value, parse).value).None?
    ensures reply.Some? && Extract(reply.value, parse).Err? ==>
      r == Err(ExtractFailed(Extract(reply.value, parse).error))
  {
    match ProcessTrade(reply, parse)
    case Err(e) => Err(e)
    case Ok(v) =>
      match render(v)
      case None => Err(NotATrade)
      case Some(t) => Ok(t)
  }

  /** The file after one invocation of `main` whose processing ended in `outcome`. */
  function AfterRun(file: Option<string>, outcome: Result<Trade, RunError>): (r: Option<string>)
    ensures r.Some? && Extends(Initialized(file), r) && Extends(file, r)
  {
    match outcome
    case Ok(t) => Appended(Initialized(file), Row(t))
    case Err(_) => Initialized(file)
  }

  /** The file after one invocation of `main` per outcome, in order. */
  function Runs(file: Option<string>, outcomes: seq<Result<Trade, RunError>>): (r: Option<string>)
    ensures Extends(file, r)
    ensures outcomes != [] ==> r.Some?
    decreases |outcomes|
  {
    if outcomes == [] then file else Runs(AfterRun(file, outcomes[0]), outcomes[1..])
  }

  /** The trade one invocation writes, as a sequence of zero or one trades. */
  function Written(outcome: Result<Trade, RunError>): seq<Trade>
  {
    if outcome.Ok? then [outcome.value] else []
  }

  /** The trades of the invocations that succeed, in call order. */
  function Recorded(outcomes: seq<Result<Trade, RunError>>): seq<Trade>
  {
    if outcomes == [] then [] else Written(outcomes[0]) + Recorded(outcomes[1..])
  }

  /** Each trade's row followed by a newline, in order. */
  function Lines(trades: seq<Trade>): string
  {
    if trades == [] then [] else Row(trades[0]) + "\n" + Lines(trades[1..])
  }

  lemma {:induction false} LinesAppend(a: seq<Trade>, b: seq<Trade>)
    ensures Lines(a + b) == Lines(a) + Lines(b)
  {
    if a == [] {
      assert a + b == b;
    } else {
      assert (a + b)[1..] == a[1..] + b;
      LinesAppend(a[1..], b);
    }
  }

  /** Regrouping a concatenation, proved apart so the run lemmas' larger contexts need not. */
  lemma ConcatAssociates(a: string, b: string, c: string)
    ensures a + b + c == a + (b + c)
  {
  }

  /** `initializeCSV` creates a missing file holding only the header, leaves an existing one alone, and is idempotent. */
  lemma InitializeIdempotent(file: Option<string>)
    ensures file.None? ==> Initialized(file) == Some(HeaderLine)
    ensures file.Some? ==> Initialized(file) == file
    ensures Initialized(Initialized(file)) == Initialized(file)
  {
  }

  /**
   * One invocation appends exactly the line of the trade it writes, if
   * any, to what `initializeCSV` left; a failed invocation appends nothing.
   */
  lemma AfterRunAppends(file: Option<string>, outcome: Result<Trade, RunError>)
    ensures AfterRun(file, outcome) == Some(Content(Initialized(file)) + Lines(Written(outcome)))
    ensures Lines(Written(outcome)) == if outcome.Ok? then Row(outcome.value) + "\n" else []
    ensures outcome.Err? <==> AfterRun(file, outcome) == Initialized(file)
  {
    var before := Content(Initialized(file));
    if outcome.Ok? {
      var t := outcome.value;
      assert [t][1..] == [];
      assert Lines([t]) == Row(t) + "\n" + Lines([]);
      assert Lines([t]) == Row(t) + "\n";
      assert Written(outcome) == [t];
      assert before + Row(t) + "\n" == before + (Row(t) + "\n");
      assert |Content(AfterRun(file, outcome))| > |before|;
    } else {
      assert before + [] == before;
    }
  }

  /** Invocations on an existing file only extend it: the old text stays, then one line per successful run. */
  lemma {:induction false} RunsOnlyAppend(text: string, outcomes: seq<Result<Trade, RunError>>)
    ensures Runs(Some(text), outcomes) == Some(text + Lines(Recorded(outcomes)))
    decreases |outcomes|
  {
    if outcomes == [] {
      assert Runs(Some(text), outcomes) == Some(text);
      assert Recorded(outcomes) == [];
      assert Lines([]) == [];
      assert text + [] == text;
    } else {
      var now := Written(outcomes[0]);
      var later := Recorded(outcomes[1..]);
      AfterRunAppends(Some(text), outcomes[0]);
      assert Runs(Some(text), outcomes) == Runs(Some(text + Lines(now)), outcomes[1..]);
      RunsOnlyAppend(text + Lines(now), outcomes[1..]);
      assert Recorded(outcomes) == now + later;
      LinesAppend(now, later);
      ConcatAssociates(text, Lines(now), Lines(later));
    }
  }

  /**
   * Starting from no file, any non-empty series of invocations leaves
   * exactly one header line, then the rows of the successful runs in call order.
   */
  lemma RunsFromMissingFile(outcomes: seq<Result<Trade, RunError>>)
    requires outcomes != []
    ensures Runs(None, outcomes) == Some(HeaderLine + Lines(Recorded(outcomes)))
  {
    var now := Written(outcomes[0]);
    var later := Recorded(outcomes[1..]);
    AfterRunAppends(None, outcomes[0]);
    RunsOnlyAppend(HeaderLine + Lines(now), outcomes[1..]);
    LinesAppend(now, later);
    ConcatAssociates(HeaderLine, Lines(now), Lines(later));
  }

  /** The CSV file of one process run of the script. */
  class TradeCsv {
    var file: Option<string>

    constructor (file: Option<string>)
      ensures this.file == file
    {
      this.file := file;
    }

    /** `initializeCSV`: write the header into a missing file; leave an existing one alone. */
    method InitializeCsv()
      modifies this
      ensures file == Initialized(old(file))
      ensures old(file).None? ==> file == Some(HeaderLine)
      ensures old(file).Some? ==> file == old(file)
    {
      if file.None? {
        file := Some(HeaderLine);
      }
    }

    /** `addTradeToCSV`: append the trade's row and a newline; earlier text is unchanged. */
    method AddTradeToCsv(t: Trade)
      modifies this
      ensures file == Appended(old(file), Row(t))
      ensures Content(file)[..|Content(old(file))|] == Content(old(file))
    {
      var row := Row(t);
      file := Some(Content(file) + row + "\n");
    }

    /** `main`: initialise, process the reply, and append a row only when every step succeeded. */
    method Run<V>(reply: Option<string>, parse: string -> Option<V>, render: V -> Option<Trade>)
      returns (outcome: Result<Trade, RunError>)
      modifies this
      ensures outcome == Outcome(reply, parse, render)
      ensures file == AfterRun(old(file), outcome)
    {
      InitializeCsv();
      var processed := ProcessTrade(reply, parse);
      match processed
      case Err(e) =>
        outcome := Err(e);
      case Ok(v) =>
        match render(v)
        case None =>
          outcome := Err(NotATrade);
        case Some(t) =>
          AddTradeToCsv(t);
          outcome := Ok(t);
    }
  }

  /**
   * Two invocations of the script on a location with no file leave one
   * header line, then the rows of the runs that succeeded, in call order.
   */
  method TwoRunsFromMissingFile<V>(first: Option<string>, second: Option<string>,
                                   parse: string -> Option<V>, render: V -> Option<Trade>)
    returns (file: Option<string>)
    ensures var o1, o2 := Outcome(first, parse, render), Outcome(second, parse, render);
      && (o1.Ok? && o2.Ok? ==> file == Some(HeaderLine + Row(o1.value) + "\n" + Row(o2.value) + "\n"))
      && (o1.Ok? && o2.Err? ==> file == Some(HeaderLine + Row(o1.value) + "\n"))
      && (o1.Err? && o2.Ok? ==> file == Some(HeaderLine + Row(o2.value) + "\n"))
      && (o1.Err? && o2.Err? ==> file == Some(HeaderLine))
  {
    var csv := new TradeCsv(None);
    var o1 := csv.Run(first, parse, render);
    var o2 := csv.Run(second, parse, render);
    file := csv.file;
    AfterRunAppends(None, o1);
    AfterRunAppends(AfterRun(None, o1), o2);
  }
}
