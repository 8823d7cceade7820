/**
 * The ledger writer (CsvLogger): a semicolon-separated results file with a
 * five-column header, one row per backend call, fields quoted in the manner
 * of RFC 4180 section 2 (rules 6 and 7) except that the separator is ';' and
 * a field with a leading or trailing space is quoted as well.
 *
 * The reader below (ReadField, ReadRecord) is not part of the harness; it is
 * the quote-aware parser against which the round trip of Escape is proved.
 */
module CsvLogger {
  import opened Results
  import opened Scenarios

  const Separator: char := ';'
  const Quote: char := '"'

  const HeaderFields: seq<string> :=
    ["Szenarioname", "Prompt Name", "Programminglanguage", "Language Info", "ScenarioType"]

  /** string.Join(Separator, parts). */
  function Join(parts: seq<string>): (r: string) {
    if |parts| == 0 then ""
    else if |parts| == 1 then parts[0]
    else parts[0] + [Separator] + Join(parts[1..])
  }

  /** The header row EnsureWithHeader writes; its names are joined unescaped. */
  const HeaderLine: string := Join(HeaderFields)

  /** The characters IndexOfAny looks for in Escape. */
  predicate IsSpecial(c: char) {
    c == Separator || c == Quote || c == '\n' || c == '\r'
  }

  predicate HasSpecial(s: string) {
    s != [] && (IsSpecial(s[0]) || HasSpecial(s[1..]))
  }

  /** Escape's mustQuote: a special character anywhere, or a space at either end. */
  predicate NeedsQuoting(value: string) {
    HasSpecial(value) || (value != [] && (value[0] == ' ' || value[|value| - 1] == ' '))
  }

  /** value.Replace("\"", "\"\""): every quote doubled, nothing else changed. */
  function DoubleQuotes(s: string): (r: string)
    ensures |r| >= |s|
  {
    if s == [] then []
    else (if s[0] == Quote then [Quote, Quote] else [s[0]]) + DoubleQuotes(s[1..])
  }

  /** Doubling the quotes doubles the number of quotes and keeps every other character. */
  lemma {:induction false} DoubleQuotesCounts(s: string, c: char)
    ensures multiset(DoubleQuotes(s))[c] == if c == Quote then 2 * multiset(s)[c] else multiset(s)[c]
  {
    if s != [] {
      DoubleQuotesCounts(s[1..], c);
      assert s == [s[0]] + s[1..];
    }
  }

  /**
   * CsvLogger.Escape. A null value becomes the empty field; a value is
   * written unchanged exactly when it needs no quoting.
   */
  function Escape(value: Option<string>): (r: string)
    ensures value.None? ==> r == ""
    ensures value.Some? ==> (r == value.value <==> !NeedsQuoting(value.value))
    ensures value.Some? && NeedsQuoting(value.value) ==>
              |r| >= 2 && r[0] == Quote && r[|r| - 1] == Quote
  {
    match value
    case None => ""
    case Some(v) =>
      if !NeedsQuoting(v) then v
      else [Quote] + DoubleQuotes(v) + [Quote]
  }

  // ---------------------------------------------------------------------
  // Quote-aware reader

  /** An unquoted field: everything up to the next separator. */
  function ReadBare(text: string): (r: (string, string))
    ensures r.0 + r.1 == text
    ensures r.1 == [] || r.1[0] == Separator
  {
    if text == [] || text[0] == Separator then ([], text)
    else
      var (v, rest) := ReadBare(text[1..]);
      ([text[0]] + v, rest)
  }

  /**
   * The body of a quoted field, after its opening quote: a doubled quote
   * stands for one quote, a single quote closes the field. None when the
   * closing quote is missing.
   */
  function ReadQuoted(text: string): (r: Option<(string, string)>)
    ensures r.Some? ==> |r.value.1| < |text|
  {
    if text == [] then None
    else if text[0] == Quote then
      if |text| > 1 && text[1] == Quote then
        match ReadQuoted(text[2..])
        case None => None
        case Some((v, rest)) => Some(([Quote] + v, rest))
      else Some(([], text[1..]))
    else
      match ReadQuoted(text[1..])
      case None => None
      case Some((v, rest)) => Some(([text[0]] + v, rest))
  }

  /** One field at the start of text: its value and the text after it. */
  function ReadField(text: string): (r: Option<(string, string)>)
    ensures r.Some? ==> |r.value.1| <= |text|
  {
    if text != [] && text[0] == Quote then ReadQuoted(text[1..])
    else Some(ReadBare(text))
  }

  /** A whole record: fields separated by the separator. None when malformed. */
  function ReadRecord(line: string): Option<seq<string>>
    decreases |line|
  {
    match ReadField(line)
    case None => None
    case Some((v, rest)) =>
      if rest == [] then Some([v])
      else if rest[0] != Separator then None
      else
        match ReadRecord(rest[1..])
        case None => None
        case Some(vs) => Some([v] + vs)
  }

  // ---------------------------------------------------------------------
  // Round trip

  lemma {:induction false} ReadBareUnquoted(s: string, rest: string)
    requires !HasSpecial(s)
    requires rest == [] || rest[0] == Separator
    ensures ReadBare(s + rest) == (s, rest)
  {
    var text := s + rest;
    if s == [] {
      assert text == rest;
    } else {
      assert text[0] == s[0] && !IsSpecial(s[0]);
      assert text[1..] == s[1..] + rest;
      ReadBareUnquoted(s[1..], rest);
      assert [s[0]] + s[1..] == s;
    }
  }

  lemma {:induction false} ReadQuotedDoubled(s: string, rest: string)
    requires rest == [] || rest[0] != Quote
    ensures ReadQuoted(DoubleQuotes(s) + [Quote] + rest) == Some((s, rest))
  {
    var text := DoubleQuotes(s) + [Quote] + rest;
    if s == [] {
      assert text == [Quote] + rest;
      assert text[1..] == rest;
    } else {
      var tail := DoubleQuotes(s[1..]) + [Quote] + rest;
      ReadQuotedDoubled(s[1..], rest);
      if s[0] == Quote {
        assert DoubleQuotes(s) == [Quote, Quote] + DoubleQuotes(s[1..]);
        assert text == [Quote, Quote] + tail;
        assert text[0] == Quote && text[1] == Quote && text[2..] == tail;
        assert ReadQuoted(text) == Some(([Quote] + s[1..], rest));
      } else {
        assert DoubleQuotes(s) == [s[0]] + DoubleQuotes(s[1..]);
        assert text == [s[0]] + tail;
        assert text[0] != Quote && text[1..] == tail;
        assert ReadQuoted(text) == Some(([s[0]] + s[1..], rest));
      }
      assert [s[0]] + s[1..] == s;
    }
  }

  /** A special character anywhere in s. */
  lemma {:induction false} HasSpecialAt(s: string)
    ensures HasSpecial(s) <==> exists i :: 0 <= i < |s| && IsSpecial(s[i])
  {
    if s != [] {
      HasSpecialAt(s[1..]);
      if exists i :: 0 <= i < |s[1..]| && IsSpecial(s[1..][i]) {
        var i :| 0 <= i < |s[1..]| && IsSpecial(s[1..][i]);
        assert IsSpecial(s[i + 1]);
      }
      if exists i :: 0 <= i < |s| && IsSpecial(s[i]) {
        var i :| 0 <= i < |s| && IsSpecial(s[i]);
        assert i == 0 || IsSpecial(s[1..][i - 1]);
      }
    }
  }

  /**
   * Escape's quoting test: a separator, quote, CR or LF anywhere in the
   * value, or a space as its first or last character.
   */
  lemma NeedsQuotingMeans(value: string)
    ensures NeedsQuoting(value) <==>
              (exists i :: 0 <= i < |value| && IsSpecial(value[i])) ||
              (|value| > 0 && (value[0] == ' ' || value[|value| - 1] == ' '))
  {
    HasSpecialAt(value);
  }

  /** Reading an escaped field gives back the original value and the rest of the line. */
  lemma EscapeReadsBack(v: string, rest: string)
    requires rest == [] || rest[0] == Separator
    ensures ReadField(Escape(Some(v)) + rest) == Some((v, rest))
  {
    if NeedsQuoting(v) {
      var body := DoubleQuotes(v) + [Quote];
      assert Escape(Some(v)) + rest == [Quote] + (body + rest);
      QuotedReadsBack(v, rest);
    } else {
      BareReadsBack(v, rest);
    }
  }

  lemma QuotedReadsBack(v: string, rest: string)
    requires rest == [] || rest[0] == Separator
    ensures ReadField([Quote] + (DoubleQuotes(v) + [Quote] + rest)) == Some((v, rest))
  {
    var inner := DoubleQuotes(v) + [Quote] + rest;
    assert ([Quote] + inner)[1..] == inner;
    ReadQuotedDoubled(v, rest);
  }

  lemma BareReadsBack(v: string, rest: string)
    requires rest == [] || rest[0] == Separator
    requires !NeedsQuoting(v)
    ensures ReadField(v + rest) == Some((v, rest))
  {
    ReadBareUnquoted(v, rest);
    assert v != [] ==> v[0] != Quote;
    assert v == [] ==> v + rest == rest;
  }

  /** Escape applied to every field. */
  function EscapeAll(fields: seq<string>): (r: seq<string>)
    ensures |r| == |fields|
    ensures forall i :: 0 <= i < |fields| ==> r[i] == Escape(Some(fields[i]))
  {
    if fields == [] then [] else [Escape(Some(fields[0]))] + EscapeAll(fields[1..])
  }

  /** Joining escaped fields and reading the line back gives the fields. */
  lemma {:induction false} RecordRoundTrip(fields: seq<string>)
    requires |fields| > 0
    ensures ReadRecord(Join(EscapeAll(fields))) == Some(fields)
  {
    var e := EscapeAll(fields);
    if |fields| == 1 {
      EscapeReadsBack(fields[0], []);
      assert Join(e) == e[0] + [];
      assert ReadField(Join(e)) == Some((fields[0], []));
      assert fields == [fields[0]];
    } else {
      var tailLine := Join(e[1..]);
      var rest := [Separator] + tailLine;
      EscapeReadsBack(fields[0], rest);
      assert Join(e) == e[0] + rest;
      assert ReadField(Join(e)) == Some((fields[0], rest));
      assert EscapeAll(fields[1..]) == e[1..];
      RecordRoundTrip(fields[1..]);
      assert rest[1..] == tailLine;
      assert ReadRecord(tailLine) == Some(fields[1..]);
      assert [fields[0]] + fields[1..] == fields;
    }
  }

  // ---------------------------------------------------------------------
  // Rows

  /** The five values AppendRow writes. */
  datatype LedgerRow = LedgerRow(
    scenarioName: string,
    promptName: string,
    language: string,
    withLanguageInfo: bool,
    scenarioType: ScenarioType)

  function FlagText(b: bool): string {
    if b then "true" else "false"
  }

  /** The values of a row as a reader sees them. */
  function RowFields(row: LedgerRow): seq<string> {
    [row.scenarioName, row.promptName, row.language, FlagText(row.withLanguageInfo), TypeName(row.scenarioType)]
  }

  /**
   * The record AppendRow writes. The flag is written without Escape, which
   * makes no difference: the record is the row's five fields, each escaped.
   */
  function RowLine(row: LedgerRow): (r: string)
    ensures r == Join(EscapeAll(RowFields(row)))
  {
    FlagNeedsNoQuoting(row.withLanguageInfo);
    assert EscapeAll(RowFields(row)) ==
      [Escape(Some(row.scenarioName)), Escape(Some(row.promptName)), Escape(Some(row.language)),
       FlagText(row.withLanguageInfo), Escape(Some(TypeName(row.scenarioType)))];
    Join([Escape(Some(row.scenarioName)),
          Escape(Some(row.promptName)),
          Escape(Some(row.language)),
          FlagText(row.withLanguageInfo),
          Escape(Some(TypeName(row.scenarioType)))])
  }

  lemma FlagNeedsNoQuoting(b: bool)
    ensures Escape(Some(FlagText(b))) == FlagText(b)
  {
    assert !HasSpecial("e") && !HasSpecial("ue") && !HasSpecial("se") && !HasSpecial("lse");
    assert !HasSpecial("rue") && !HasSpecial("true") && !HasSpecial("alse") && !HasSpecial("false");
  }

  /**
   * Every ledger row reads back as exactly five fields: the scenario name,
   * the prompt name, the language, "true" or "false", and the type's name.
   */
  lemma RowLineReadsBack(row: LedgerRow)
    ensures ReadRecord(RowLine(row)) == Some(RowFields(row))
    ensures |RowFields(row)| == 5
    ensures RowFields(row)[3] == "true" || RowFields(row)[3] == "false"
  {
    RecordRoundTrip(RowFields(row));
  }

  // ---------------------------------------------------------------------
  // The ledger file

  /** EnsureWithHeader on the file's records: creates it with the header only when absent. */
  function WithHeader(file: Option<seq<string>>): (r: Option<seq<string>>)
    ensures r.Some?
    ensures file.Some? ==> r == file
    ensures file.None? ==> r.value == [HeaderLine]
  {
    if file.None? then Some([HeaderLine]) else file
  }

  /** Ensuring the header twice is ensuring it once. */
  lemma WithHeaderIdempotent(file: Option<seq<string>>)
    ensures WithHeader(WithHeader(file)) == WithHeader(file)
  {
  }

  /**
   * The results file: None while it does not exist, else its records, one
   * per WriteLine (a quoted field may itself hold a line break).
   */
  class LedgerFile {
    var content: Option<seq<string>>

    constructor (content: Option<seq<string>>)
      ensures this.content == content
    {
      this.content := content;
    }

    /** Creates the file with its header row, and leaves an existing file untouched. */
    method EnsureWithHeader()
      modifies this
      ensures content == WithHeader(old(content))
    {
      if content.None? {
        content := Some([HeaderLine]);
      }
    }

    /** Appends one row record; opening for append creates a missing file (without header). */
    method AppendRow(scenarioName: string, promptName: string, language: string,
                     withLanguageInfo: bool, scenarioType: ScenarioType)
      modifies this
      ensures content == Some(old(content).GetOr([]) +
                [RowLine(LedgerRow(scenarioName, promptName, language, withLanguageInfo, scenarioType))])
    {
      var line := RowLine(LedgerRow(scenarioName, promptName, language, withLanguageInfo, scenarioType));
      content := Some(content.GetOr([]) + [line]);
    }
  }
}
