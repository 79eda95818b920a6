/**
 * The CSV export of app/static/js/script.js: a byte-order mark, the header line,
 * then one line per template. Every field is wrapped in double quotes, with inner quotes
 * doubled. The hashtags are joined with spaces when they form an array, and are empty otherwise.
 *
 * A reader for the quoted records is defined beside the writer. The round-trip lemmas show that
 * it reads every field back, whatever commas, quotes or line breaks the field contains.
 */
module CsvExport {
  import opened Wrappers
  import opened JsText

  /** A template as the page holds it after `response.json()`. `hashtag` is `None` when it is not an array. */
  datatype CardTemplate = CardTemplate(title: string, menu: string, comment: string, hashtag: Option<seq<string>>)

  const Bom: string := "\U{FEFF}"
  const HeaderFields: seq<string> := ["タイトル", "メニュー", "コメント", "ハッシュタグ"]

  /** `s.replace(/"/g, '""')` */
  function Escape(s: string): (r: string)
    ensures |r| >= |s|
    decreases |s|
  {
    if s == [] then [] else (if s[0] == '"' then "\"\"" else [s[0]]) + Escape(s[1..])
  }

  /** `"${s.replace(/"/g, '""')}"` */
  function Quote(s: string): string {
    "\"" + Escape(s) + "\""
  }

  function QuoteAll(fs: seq<string>): (r: seq<string>)
    ensures |r| == |fs| && forall i :: 0 <= i < |fs| ==> r[i] == Quote(fs[i])
  {
    seq(|fs|, i requires 0 <= i < |fs| => Quote(fs[i]))
  }

  /** One CSV line: the quoted fields joined with commas. */
  function RecordText(fs: seq<string>): string {
    Join(",", QuoteAll(fs))
  }

  /** `Array.isArray(template.hashtag) ? template.hashtag.join(' ') : ''` */
  function TagsText(hashtag: Option<seq<string>>): string {
    match hashtag
    case Some(tags) => Join(" ", tags)
    case None => ""
  }

  /** The four exported fields of a template, before quoting. */
  function Fields(t: CardTemplate): seq<string> {
    [t.title, t.menu, t.comment, TagsText(t.hashtag)]
  }

  function Lines(rows: seq<seq<string>>): (r: seq<string>)
    ensures |r| == |rows| && forall i :: 0 <= i < |rows| ==> r[i] == RecordText(rows[i])
  {
    seq(|rows|, i requires 0 <= i < |rows| => RecordText(rows[i]))
  }

  function AllFields(ts: seq<CardTemplate>): (r: seq<seq<string>>)
    ensures |r| == |ts| && forall i :: 0 <= i < |ts| ==> r[i] == Fields(ts[i])
  {
    seq(|ts|, i requires 0 <= i < |ts| => Fields(ts[i]))
  }

  /** The CSV handler: nothing to export when there are no templates (an error toast instead). */
  function ExportCsv(templates: seq<CardTemplate>): (r: Option<string>)
    ensures r.None? <==> templates == []
  {
    if templates == [] then None
    else Some(Bom + Join(",", HeaderFields) + "\n" + Join("\n", Lines(AllFields(templates))))
  }

  // ---------------------------------------------------------------------------------------
  // Reading the records back
  // ---------------------------------------------------------------------------------------

  /** The rest of a quoted field after its opening quote: its content, and what follows the closing quote. */
  function ParseEscaped(t: string): (r: Option<(string, string)>)
    ensures r.Some? ==> |r.value.1| < |t|
    decreases |t|
  {
    if t == [] then None
    else if t[0] == '"' then
      if |t| > 1 && t[1] == '"' then
        match ParseEscaped(t[2..])
        case None => None
        case Some((f, rest)) => Some(("\"" + f, rest))
      else Some(("", t[1..]))
    else
      match ParseEscaped(t[1..])
      case None => None
      case Some((f, rest)) => Some(([t[0]] + f, rest))
  }

  /** A line of quoted fields separated by commas, and what follows it. */
  function ParseRecord(t: string): (r: Option<(seq<string>, string)>)
    ensures r.Some? ==> |r.value.1| < |t|
    decreases |t|
  {
    if t == [] || t[0] != '"' then None
    else
      match ParseEscaped(t[1..])
      case None => None
      case Some((f, rest)) =>
        if rest != [] && rest[0] == ',' then
          match ParseRecord(rest[1..])
          case None => None
          case Some((fs, rest2)) => Some(([f] + fs, rest2))
        else Some(([f], rest))
  }

  /** Lines of quoted records separated by line feeds, to the end of the text. */
  function ParseRecords(t: string): Option<seq<seq<string>>>
    decreases |t|
  {
    match ParseRecord(t)
    case None => None
    case Some((record, rest)) =>
      if rest == [] then Some([record])
      else if rest[0] == '\n' then
        match ParseRecords(rest[1..])
        case None => None
        case Some(records) => Some([record] + records)
      else None
  }

  /** The closing quote is found again after the escaped content, provided no quote follows it. */
  lemma {:induction false} EscapedRoundTrip(s: string, rest: string)
    requires rest == [] || rest[0] != '"'
    ensures ParseEscaped(Escape(s) + "\"" + rest) == Some((s, rest))
    decreases |s|
  {
    var t := Escape(s) + "\"" + rest;
    if s == [] {
      assert t == "\"" + rest;
      assert t[1..] == rest;
    } else {
      EscapedRoundTrip(s[1..], rest);
      var tail := Escape(s[1..]) + "\"" + rest;
      if s[0] == '"' {
        assert t == "\"\"" + tail;
        assert t[2..] == tail;
        assert "\"" + s[1..] == s;
      } else {
        assert t == [s[0]] + tail;
        assert t[1..] == tail;
        assert [s[0]] + s[1..] == s;
      }
    }
  }

  lemma QuoteAllTail(fs: seq<string>)
    requires |fs| >= 1
    ensures QuoteAll(fs)[1..] == QuoteAll(fs[1..])
  {
  }

  /** A quoted field is read back whole, provided no quote follows it. */
  lemma QuotedFieldRoundTrip(f: string, rest: string)
    requires rest == [] || rest[0] != '"'
    ensures var t := Quote(f) + rest;
      t != [] && t[0] == '"' && ParseEscaped(t[1..]) == Some((f, rest))
  {
    var t := Quote(f) + rest;
    assert t[1..] == Escape(f) + "\"" + rest;
    EscapedRoundTrip(f, rest);
  }

  lemma RecordTextCons(fs: seq<string>)
    requires |fs| >= 2
    ensures RecordText(fs) == Quote(fs[0]) + "," + RecordText(fs[1..])
  {
    QuoteAllTail(fs);
    JoinTwoOrMore(",", QuoteAll(fs));
  }

  /** A written line is read back field by field, when a line feed or the end follows it. */
  lemma {:induction false} RecordRoundTrip(fs: seq<string>, rest: string)
    requires fs != [] && (rest == [] || rest[0] == '\n')
    ensures ParseRecord(RecordText(fs) + rest) == Some((fs, rest))
    decreases |fs|
  {
    if |fs| == 1 {
      assert RecordText(fs) == Quote(fs[0]);
      QuotedFieldRoundTrip(fs[0], rest);
      assert [fs[0]] == fs;
    } else {
      var more := RecordText(fs[1..]);
      RecordTextCons(fs);
      var after := "," + more + rest;
      assert RecordText(fs) + rest == Quote(fs[0]) + after;
      QuotedFieldRoundTrip(fs[0], after);
      assert after[1..] == more + rest;
      RecordRoundTrip(fs[1..], rest);
      assert [fs[0]] + fs[1..] == fs;
    }
  }

  /** Lines joined with line feeds are read back as the records they were written from. */
  lemma {:induction false} RecordsRoundTrip(rows: seq<seq<string>>)
    requires rows != [] && forall i :: 0 <= i < |rows| ==> rows[i] != []
    ensures ParseRecords(Join("\n", Lines(rows))) == Some(rows)
    decreases |rows|
  {
    var first := RecordText(rows[0]);
    if |rows| == 1 {
      assert Join("\n", Lines(rows)) == first;
      RecordRoundTrip(rows[0], "");
      assert first + "" == first;
      assert [rows[0]] == rows;
    } else {
      assert Lines(rows)[1..] == Lines(rows[1..]);
      JoinTwoOrMore("\n", Lines(rows));
      var more := Join("\n", Lines(rows[1..]));
      assert Join("\n", Lines(rows)) == first + ("\n" + more);
      RecordRoundTrip(rows[0], "\n" + more);
      assert ("\n" + more)[1..] == more;
      RecordsRoundTrip(rows[1..]);
      assert [rows[0]] + rows[1..] == rows;
    }
  }

  /**
   * The exported document is the byte-order mark, the header, a line feed, and text from which
   * every template's four fields are read back exactly, in order.
   */
  lemma ExportRoundTrip(templates: seq<CardTemplate>)
    requires templates != []
    ensures exists body ::
      ExportCsv(templates) == Some(Bom + Join(",", HeaderFields) + "\n" + body) &&
      ParseRecords(body) == Some(AllFields(templates))
  {
    var rows := AllFields(templates);
    RecordsRoundTrip(rows);
    var body := Join("\n", Lines(rows));
    assert ExportCsv(templates) == Some(Bom + Join(",", HeaderFields) + "\n" + body);
  }

  /** The header line holds neither a quote nor a line feed, so it ends at the first line feed. */
  lemma HeaderIsOneLine()
    ensures '\n' !in Join(",", HeaderFields) && '"' !in Join(",", HeaderFields)
  {
    var h := Join(",", HeaderFields);
    assert h == "タイトル,メニュー,コメント,ハッシュタグ";
  }
}
