/**
 * The CSV row built by `addTradeToCSV` (script.js:66-79) and the header
 * written by `initializeCSV` (script.js:12-17), together with a decoder
 * that reads such a row back.
 *
 * Every field is text already: the numbers the AI returns are taken as
 * rendered by JavaScript, which this model does not re-specify.
 */
module CsvRow {
  import opened Wrappers

  /** One trade, its eight fields in the column order of the file. */
  datatype Trade = Trade(
    date: string,
    symbol: string,
    entryPrice: string,
    exitPrice: string,
    positionSize: string,
    direction: string,
    profitLoss: string,
    notes: string)

  const Quote: char := '"'
  const Comma: char := ','

  /** Number of occurrences of `c` in `s`. */
  function CountChar(s: string, c: char): (n: nat)
    ensures n <= |s|
  {
    if s == [] then 0 else (if s[0] == c then 1 else 0) + CountChar(s[1..], c)
  }

  /**
   * The global replace of `"` by `""`: every double quote is doubled and
   * every other character is kept, in order.
   */
  function EscapeQuotes(s: string): (r: string)
    ensures |s| <= |r| <= 2 * |s|
  {
    if s == [] then []
    else if s[0] == Quote then [Quote] + ([Quote] + EscapeQuotes(s[1..]))
    else [s[0]] + EscapeQuotes(s[1..])
  }

  /**
   * Escaping doubles every quote and changes nothing else: the length grows
   * by the number of quotes, the quotes double, every other character keeps
   * its count.
   */
  lemma {:induction false} EscapeCounts(s: string, c: char)
    ensures |EscapeQuotes(s)| == |s| + CountChar(s, Quote)
    ensures CountChar(EscapeQuotes(s), Quote) == 2 * CountChar(s, Quote)
    ensures c != Quote ==> CountChar(EscapeQuotes(s), c) == CountChar(s, c)
  {
    if s != [] {
      EscapeCounts(s[1..], c);
      var e := EscapeQuotes(s);
      if s[0] == Quote {
        assert e[1..] == [Quote] + EscapeQuotes(s[1..]);
        assert e[1..][1..] == EscapeQuotes(s[1..]);
      } else {
        assert e[1..] == EscapeQuotes(s[1..]);
      }
    }
  }

  /** The notes column: the escaped notes between two double quotes. */
  function QuoteNotes(notes: string): (r: string)
    ensures |r| >= 2 && r[0] == Quote && r[|r| - 1] == Quote
  {
    [Quote] + EscapeQuotes(notes) + [Quote]
  }

  /**
   * The inverse of `EscapeQuotes` as section 2 of RFC 4180 reads a quoted
   * field: `""` stands for `"`, and a lone `"` is malformed.
   */
  function UnescapeQuotes(t: string): (r: Option<string>)
    ensures r.Some? ==> EscapeQuotes(r.value) == t
  {
    if t == [] then Some([])
    else if t[0] != Quote then
      match UnescapeQuotes(t[1..])
      case None => None
      case Some(s) => Some([t[0]] + s)
    else if |t| >= 2 && t[1] == Quote then
      match UnescapeQuotes(t[2..])
      case None => None
      case Some(s) => Some([Quote] + s)
    else None
  }

  /** Reads a quoted field: strips the outer quotes and undoubles the inner ones. */
  function UnquoteField(q: string): (r: Option<string>)
    ensures r.Some? ==> QuoteNotes(r.value) == q
  {
    if |q| >= 2 && q[0] == Quote && q[|q| - 1] == Quote then
      var inner := UnescapeQuotes(q[1..|q| - 1]);
      if inner.Some? then
        Requote(q, inner.value);
        inner
      else None
    else None
  }

  lemma Requote(q: string, notes: string)
    requires |q| >= 2 && q[0] == Quote && q[|q| - 1] == Quote
    requires EscapeQuotes(notes) == q[1..|q| - 1]
    ensures QuoteNotes(notes) == q
  {
    assert q == [Quote] + q[1..|q| - 1] + [Quote];
  }

  lemma {:induction false} UnescapeEscape(s: string)
    ensures UnescapeQuotes(EscapeQuotes(s)) == Some(s)
  {
    if s != [] {
      UnescapeEscape(s[1..]);
      var e := EscapeQuotes(s);
      if s[0] == Quote {
        assert e[2..] == EscapeQuotes(s[1..]);
      } else {
        assert e[1..] == EscapeQuotes(s[1..]);
      }
      assert [s[0]] + s[1..] == s;
    }
  }

  /**
   * Stripping the outer quotes of the notes column and replacing each `""`
   * by `"` gives back the notes exactly; and the notes column is the only
   * text that reads back as those notes.
   */
  lemma QuoteRoundTrip(notes: string, q: string)
    ensures UnquoteField(QuoteNotes(notes)) == Some(notes)
    ensures UnquoteField(q) == Some(notes) <==> QuoteNotes(notes) == q
  {
    UnescapeEscape(notes);
  }

  /** Sum of the lengths of the parts. */
  function TotalLength(parts: seq<string>): nat
  {
    if parts == [] then 0 else |parts[0]| + TotalLength(parts[1..])
  }

  /** `Array.prototype.join`: the parts with one separator between neighbours. */
  function Join(parts: seq<string>, sep: char): (r: string)
    ensures parts != [] ==> |r| == TotalLength(parts) + |parts| - 1
  {
    if |parts| == 0 then []
    else if |parts| == 1 then parts[0]
    else parts[0] + [sep] + Join(parts[1..], sep)
  }

  const CarriageReturn: char := '\r'
  const LineFeed: char := '\n'

  /**
   * A column that reads back unquoted under rules 4 to 6 of section 2 of
   * RFC 4180: no comma, no double quote and no line break.
   */
  predicate PlainSafe(f: string)
  {
    Comma !in f && Quote !in f && CarriageReturn !in f && LineFeed !in f
  }

  /** The seven columns written without any escaping. */
  function PlainFields(t: Trade): seq<string>
  {
    [t.date, t.symbol, t.entryPrice, t.exitPrice, t.positionSize, t.direction, t.profitLoss]
  }

  /** The row `addTradeToCSV` appends, without its line terminator. */
  function Row(t: Trade): (r: string)
    ensures |r| >= 2 && r[|r| - 1] == Quote
  {
    JoinEndsWithLast(PlainFields(t) + [QuoteNotes(t.notes)], Comma);
    Join(PlainFields(t) + [QuoteNotes(t.notes)], Comma)
  }

  lemma {:induction false} JoinEndsWithLast(parts: seq<string>, sep: char)
    requires |parts| > 0
    ensures var r := Join(parts, sep);
      |r| >= |parts[|parts| - 1]| && r[|r| - |parts[|parts| - 1]|..] == parts[|parts| - 1]
  {
    if |parts| > 1 {
      JoinEndsWithLast(parts[1..], sep);
    }
  }

  /**
   * The header line `initializeCSV` writes into a new file: the eight
   * column titles joined by commas, then a newline.
   */
  const HeaderLine: string :=
    "Date,Symbol,Entry Price,Exit Price,Position Size,Direction,Profit/Loss,Notes\n"

  /** A written row never reads as the header line: the row ends in a quote, the header in `Notes`. */
  lemma RowIsNotHeader(t: Trade)
    ensures Row(t) + "\n" != HeaderLine
  {
    var r := Row(t) + "\n";
    assert r[|r| - 2] == Quote;
  }

  /** A symbol holding a comma shifts every later column: the row no longer reads back as the trade. */
  lemma SymbolWithCommaMisreads(t: Trade)
    requires Comma in t.symbol
    ensures DecodeRow(Row(t)) != Some(t)
  {
    RowRoundTrip(t);
    assert t.symbol in PlainFields(t);
  }

  /** Splits off the text before the first comma; None when there is no comma. */
  function TakeField(s: string): (r: Option<(string, string)>)
    ensures r.None? <==> Comma !in s
    ensures r.Some? ==> Comma !in r.value.0 && s == r.value.0 + [Comma] + r.value.1
  {
    if s == [] then None
    else if s[0] == Comma then Some(([], s[1..]))
    else
      match TakeField(s[1..])
      case None => None
      case Some((f, rest)) => Some(([s[0]] + f, rest))
  }

  /** Splits off `n` comma-terminated fields; the rest is everything after the `n`-th comma. */
  function DecodeFields(s: string, n: nat): (r: Option<(seq<string>, string)>)
    decreases n
    ensures r.Some? ==> |r.value.0| == n
    ensures r.Some? ==> forall f :: f in r.value.0 ==> Comma !in f
    ensures r.Some? ==> Join(r.value.0 + [r.value.1], Comma) == s
  {
    if n == 0 then Some(([], s))
    else
      match TakeField(s)
      case None => None
      case Some((f, rest)) =>
        match DecodeFields(rest, n - 1)
        case None => None
        case Some((fs, tail)) =>
          assert ([f] + fs + [tail])[1..] == fs + [tail];
          Some(([f] + fs, tail))
  }

  /**
   * Reads a row back as section 2 of RFC 4180 does: the text before the
   * 7th comma gives the seven plain columns, which may hold no double quote
   * and no line break, and the rest must be a quoted notes column.
   */
  function DecodeRow(line: string): (r: Option<Trade>)
    ensures r.Some? ==> forall f :: f in PlainFields(r.value) ==> PlainSafe(f)
    ensures r.Some? ==> Row(r.value) == line
  {
    match DecodeFields(line, 7)
    case None => None
    case Some((fs, rest)) =>
      if !(forall f :: f in fs ==> PlainSafe(f)) then None
      else
        match UnquoteField(rest)
        case None => None
        case Some(notes) =>
          var t := Trade(fs[0], fs[1], fs[2], fs[3], fs[4], fs[5], fs[6], notes);
          RowOfColumns(t, fs, rest);
          Some(t)
  }

  lemma RowOfColumns(t: Trade, fs: seq<string>, notesColumn: string)
    requires |fs| == 7
    requires t == Trade(fs[0], fs[1], fs[2], fs[3], fs[4], fs[5], fs[6], t.notes)
    requires QuoteNotes(t.notes) == notesColumn
    ensures PlainFields(t) == fs
    ensures Row(t) == Join(fs + [notesColumn], Comma)
  {
  }

  /** Joining comma-free fields and a tail, then splitting off as many fields, gives both back. */
  lemma {:induction false} DecodeJoin(fs: seq<string>, tail: string)
    requires forall f :: f in fs ==> Comma !in f
    ensures DecodeFields(Join(fs + [tail], Comma), |fs|) == Some((fs, tail))
  {
    if fs != [] {
      var s := Join(fs + [tail], Comma);
      assert (fs + [tail])[1..] == fs[1..] + [tail];
      assert s == fs[0] + [Comma] + Join(fs[1..] + [tail], Comma);
      TakeFieldOf(fs[0], Join(fs[1..] + [tail], Comma));
      DecodeJoin(fs[1..], tail);
      assert [fs[0]] + fs[1..] == fs;
    }
  }

  lemma {:induction false} TakeFieldOf(f: string, rest: string)
    requires Comma !in f
    ensures TakeField(f + [Comma] + rest) == Some((f, rest))
  {
    if f != [] {
      assert (f + [Comma] + rest)[1..] == f[1..] + [Comma] + rest;
      TakeFieldOf(f[1..], rest);
      assert [f[0]] + f[1..] == f;
    }
  }

  /**
   * The first seven columns of a row are written unescaped. When none of
   * them holds a comma, the text before the 7th comma splits back into
   * those seven columns and the rest is the quoted notes.
   */
  lemma RowSplitsAtSeventhComma(t: Trade)
    requires forall f :: f in PlainFields(t) ==> Comma !in f
    ensures DecodeFields(Row(t), 7) == Some((PlainFields(t), QuoteNotes(t.notes)))
  {
    DecodeJoin(PlainFields(t), QuoteNotes(t.notes));
  }

  /**
   * The row reads back as the trade exactly when none of the seven
   * unescaped columns holds a comma, a double quote or a line break.
   */
  lemma RowRoundTrip(t: Trade)
    ensures DecodeRow(Row(t)) == Some(t) <==> forall f :: f in PlainFields(t) ==> PlainSafe(f)
  {
    if forall f :: f in PlainFields(t) ==> PlainSafe(f) {
      RowSplitsAtSeventhComma(t);
      QuoteRoundTrip(t.notes, QuoteNotes(t.notes));
    }
  }
}
