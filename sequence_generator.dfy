/*
 * The sequence page's script: the JSON payload it builds from the form, the
 * bounds it checks before posting, the CSRF token it reads from the cookie,
 * its CSV export (quotes in the data doubled), and the choice between a
 * client-side ZIP of inline images and a server-side ZIP of saved ids.
 * Barcodes arrive as server JSON objects; an entry that is null or not an
 * object is None.
 */
module SequenceGenerator {
  import opened Text
  import opened JsValues
  import AppServer

  // ---------------------------------------------------------------------
  // The request payload (handleSequenceFormSubmit).

  datatype PayloadValue = NumberField(n: int) | TextField(s: string)

  const NumericKeys: set<string> := {"start", "count", "pad_length"}

  /** `parseInt(value) || 0` for start, count and pad_length (NaN and 0 both
    * give 0), `value || ''` for every other field. */
  function Converted(key: string, value: string): (v: PayloadValue)
    ensures key in NumericKeys <==> v.NumberField?
    ensures key in NumericKeys && ParseInt(value).None? ==> v.n == 0
    ensures key in NumericKeys && ParseInt(value).Some? ==> v.n == ParseInt(value).value
    ensures key !in NumericKeys ==> v == TextField(value)
  {
    if key in NumericKeys then
      NumberField(match ParseInt(value) case Some(n) => n case None => 0)
    else TextField(value)
  }

  /** The object after the form's entries were written one after another. */
  function PayloadOf(entries: seq<(string, string)>): map<string, PayloadValue>
  {
    if entries == [] then map[]
    else
      var last := entries[|entries| - 1];
      PayloadOf(entries[..|entries| - 1])[last.0 := Converted(last.0, last.1)]
  }

  method BuildPayload(entries: seq<(string, string)>) returns (payload: map<string, PayloadValue>)
    ensures payload == PayloadOf(entries)
  {
    payload := map[];
    var i := 0;
    while i < |entries|
      invariant 0 <= i <= |entries|
      invariant payload == PayloadOf(entries[..i])
    {
      var key := entries[i].0;
      var value := entries[i].1;
      assert entries[..i + 1][..i] == entries[..i];
      if key in NumericKeys {
        var n := 0;
        match ParseInt(value) {
          case Some(v) => n := v;
          case None =>
        }
        payload := payload[key := NumberField(n)];
      } else {
        payload := payload[key := TextField(value)];
      }
      i := i + 1;
    }
    assert entries[..i] == entries;
  }

  /** The payload has exactly the keys of the form, each holding the value
    * of the last entry with that key. */
  lemma {:induction false} PayloadKeys(entries: seq<(string, string)>)
    ensures forall k :: k in PayloadOf(entries) <==> exists i :: 0 <= i < |entries| && entries[i].0 == k
  {
    if entries != [] {
      var init := entries[..|entries| - 1];
      PayloadKeys(init);
      forall k | k in PayloadOf(entries)
        ensures exists i :: 0 <= i < |entries| && entries[i].0 == k
      {
        if k != entries[|entries| - 1].0 {
          assert k in PayloadOf(init);
          var i :| 0 <= i < |init| && init[i].0 == k;
          assert entries[i] == init[i];
        }
      }
      forall k | exists i :: 0 <= i < |entries| && entries[i].0 == k
        ensures k in PayloadOf(entries)
      {
        var i :| 0 <= i < |entries| && entries[i].0 == k;
        if i < |init| {
          assert init[i] == entries[i];
        }
      }
    }
  }

  lemma {:induction false} LastEntryWins(entries: seq<(string, string)>, i: nat)
    requires i < |entries|
    requires forall j :: i < j < |entries| ==> entries[j].0 != entries[i].0
    ensures entries[i].0 in PayloadOf(entries)
    ensures PayloadOf(entries)[entries[i].0] == Converted(entries[i].0, entries[i].1)
    decreases |entries|
  {
    if i < |entries| - 1 {
      var init := entries[..|entries| - 1];
      assert init[i] == entries[i];
      forall j | i < j < |init| ensures init[j].0 != init[i].0 {
        assert init[j] == entries[j];
      }
      LastEntryWins(init, i);
    }
  }

  /** A numeric key always holds a number, whatever was typed. */
  lemma {:induction false} NumericKeysHoldNumbers(entries: seq<(string, string)>)
    ensures forall k :: k in PayloadOf(entries) && k in NumericKeys ==> PayloadOf(entries)[k].NumberField?
  {
    if entries != [] {
      NumericKeysHoldNumbers(entries[..|entries| - 1]);
    }
  }

  // ---------------------------------------------------------------------
  // validateFormData.

  /** The number under a key; a missing key compares false both ways. */
  function NumberAt(payload: map<string, PayloadValue>, key: string): Option<int>
  {
    if key in payload && payload[key].NumberField? then Some(payload[key].n) else None
  }

  predicate StartOk(payload: map<string, PayloadValue>)
  {
    NumberAt(payload, "start").None? || NumberAt(payload, "start").value >= 0
  }

  predicate CountOk(payload: map<string, PayloadValue>)
  {
    NumberAt(payload, "count").None? || 1 <= NumberAt(payload, "count").value <= 1000
  }

  predicate PadOk(payload: map<string, PayloadValue>)
  {
    NumberAt(payload, "pad_length").None? || 0 <= NumberAt(payload, "pad_length").value <= 20
  }

  const StartMessage: string := "Start number cannot be negative."
  const CountMessage: string := "Count must be between 1 and 1000."
  const PadMessage: string := "Padding must be between 0 and 20."

  /** The first failing check's message, in the order start, count,
    * padding; None when all pass. */
  function ValidateFormData(payload: map<string, PayloadValue>): (r: Option<string>)
    ensures r.None? <==> StartOk(payload) && CountOk(payload) && PadOk(payload)
    ensures !StartOk(payload) ==> r == Some(StartMessage)
    ensures StartOk(payload) && !CountOk(payload) ==> r == Some(CountMessage)
    ensures StartOk(payload) && CountOk(payload) && !PadOk(payload) ==> r == Some(PadMessage)
  {
    var start := NumberAt(payload, "start");
    var count := NumberAt(payload, "count");
    var pad := NumberAt(payload, "pad_length");
    if start.Some? && start.value < 0 then Some(StartMessage)
    else if count.Some? && (count.value < 1 || count.value > 1000) then Some(CountMessage)
    else if pad.Some? && (pad.value < 0 || pad.value > 20) then Some(PadMessage)
    else None
  }

  /** For the count and padding the page checks the same bounds as the
    * server's generate_sequence. */
  lemma BoundsAgreeWithServer(payload: map<string, PayloadValue>, count: int, pad: int)
    requires NumberAt(payload, "count") == Some(count) && NumberAt(payload, "pad_length") == Some(pad)
    requires StartOk(payload)
    ensures ValidateFormData(payload).None? <==> AppServer.BoundsError(count, pad, 1000).None?
  {
  }

  /** A count that is not a number becomes 0 and is refused; a form
    * without the numeric fields passes. */
  lemma UnreadableCountRefused()
    ensures ValidateFormData(PayloadOf([("count", "abc")])) == Some(CountMessage)
    ensures ValidateFormData(PayloadOf([])) == None
  {
    assert "abc"[0] == 'a' && !IsSpace(Js, 'a');
    assert TrimStart(Js, "abc") == "abc";
    assert DigitPrefix("abc", 10) == "";
    var entries := [("count", "abc")];
    assert entries[..0] == [];
    assert PayloadOf(entries) == map["count" := NumberField(0)];
  }

  // ---------------------------------------------------------------------
  // getCsrfToken.

  const CsrfName: string := "csrf_token="

  /** The rest of the first trimmed cookie that starts with the name, or ''
    * when none does. */
  function TokenIn(cookies: seq<string>): string
  {
    TokenAfter(cookies, (c: string) => Trim(Js, c))
  }

  /** The same search with the trimming as a parameter. */
  function TokenAfter(cookies: seq<string>, trim: string -> string): string
  {
    if cookies == [] then ""
    else
      var c := trim(cookies[0]);
      if CsrfName <= c then c[|CsrfName|..] else TokenAfter(cookies[1..], trim)
  }

  /** The cookie string after decodeURIComponent, split on ';'. */
  function CsrfToken(cookie: string): string
  {
    TokenIn(Split(cookie, ';'))
  }

  method GetCsrfToken(cookie: string) returns (token: string)
    ensures token == CsrfToken(cookie)
  {
    var cookieArray := Split(cookie, ';');
    var i := 0;
    while i < |cookieArray|
      invariant 0 <= i <= |cookieArray|
      invariant TokenIn(cookieArray) == TokenIn(cookieArray[i..])
    {
      var c := Trim(Js, cookieArray[i]);
      if CsrfName <= c {
        return c[|CsrfName|..];
      }
      assert cookieArray[i..][1..] == cookieArray[i + 1..];
      i := i + 1;
    }
    return "";
  }

  /** The token is read from the first cookie that carries the name. */
  lemma TokenFromFirstMatch(cookies: seq<string>, i: nat)
    requires i < |cookies| && CsrfName <= Trim(Js, cookies[i])
    requires forall j :: 0 <= j < i ==> !(CsrfName <= Trim(Js, cookies[j]))
    ensures CsrfName + TokenIn(cookies) == Trim(Js, cookies[i])
  {
    FirstMatchGives(cookies, i, (c: string) => Trim(Js, c));
  }

  lemma {:induction false} FirstMatchGives(cookies: seq<string>, i: nat, trim: string -> string)
    requires i < |cookies| && CsrfName <= trim(cookies[i])
    requires forall j :: 0 <= j < i ==> !(CsrfName <= trim(cookies[j]))
    ensures CsrfName + TokenAfter(cookies, trim) == trim(cookies[i])
    decreases i
  {
    if i > 0 {
      assert !(CsrfName <= trim(cookies[0]));
      var tail := cookies[1..];
      assert tail[i - 1] == cookies[i];
      forall j | 0 <= j < i - 1 ensures !(CsrfName <= trim(tail[j])) {
        assert tail[j] == cookies[j + 1];
      }
      FirstMatchGives(tail, i - 1, trim);
    } else {
      var c := trim(cookies[0]);
      assert c == CsrfName + c[|CsrfName|..];
    }
  }

  /** Without a cookie that carries the name, the token is empty. */
  lemma NoTokenCookie(cookies: seq<string>)
    requires forall i :: 0 <= i < |cookies| ==> !(CsrfName <= Trim(Js, cookies[i]))
    ensures TokenIn(cookies) == ""
  {
    NoMatchGivesEmpty(cookies, (c: string) => Trim(Js, c));
  }

  lemma {:induction false} NoMatchGivesEmpty(cookies: seq<string>, trim: string -> string)
    requires forall i :: 0 <= i < |cookies| ==> !(CsrfName <= trim(cookies[i]))
    ensures TokenAfter(cookies, trim) == ""
  {
    if cookies != [] {
      var tail := cookies[1..];
      forall i | 0 <= i < |tail| ensures !(CsrfName <= trim(tail[i])) {
        assert tail[i] == cookies[i + 1];
      }
      NoMatchGivesEmpty(tail, trim);
    }
  }

  /** trim() of a text behind one blank gives the text, when the text has
    * no white space at either end. */
  lemma TrimAfterBlank(x: string)
    requires x != [] && !IsSpace(Js, x[0]) && !IsSpace(Js, x[|x| - 1])
    ensures Trim(Js, " " + x) == x
  {
    var s := " " + x;
    var t := TrimStart(Js, s);
    var m := |s| - |t|;
    assert t == s[m..] && AllSpace(Js, s[..m]);
    assert IsSpace(Js, s[0]) && s[1] == x[0];
    assert m == 1;
    assert t == x;
    var u := TrimStart(Js, x);
    assert |u| == |x|;
    assert u == x;
    TrimUnchanged(Js, x);
  }

  lemma SingleCookie(piece: string)
    requires ';' !in piece
    ensures Split(piece, ';') == [piece]
  {
    SplitPrefix(piece, "", ';');
    assert piece + "" == piece;
  }

  lemma TwoCookies(a: string, b: string)
    requires ';' !in a && ';' !in b
    ensures Split(a + ";" + b, ';') == [a, b]
  {
    SingleCookie(b);
    var rest := [';'] + b;
    assert rest[0] == ';' && rest[1..] == b;
    assert Split(rest, ';') == [""] + [b];
    assert a + ";" + b == a + rest;
    SplitPrefix(a, rest, ';');
    assert a + "" == a;
  }

  /** The cookie `csrf_token=TOKEN` has no ';' and trims to itself. */
  lemma NamedPiece(token: string)
    requires ';' !in token && token != [] && !IsSpace(Js, token[|token| - 1])
    ensures ';' !in CsrfName + token
    ensures Trim(Js, CsrfName + token) == CsrfName + token
  {
    var piece := CsrfName + token;
    assert piece[0] == 'c' && piece[|piece| - 1] == token[|token| - 1];
    TrimUnchanged(Js, piece);
  }

  /** ... and behind one blank it trims to the same. */
  lemma BlankNamedPiece(token: string)
    requires ';' !in token && token != [] && !IsSpace(Js, token[|token| - 1])
    ensures ';' !in " " + CsrfName + token
    ensures Trim(Js, " " + CsrfName + token) == CsrfName + token
  {
    var piece := CsrfName + token;
    assert " " + CsrfName + token == " " + piece;
    assert piece[0] == 'c' && piece[|piece| - 1] == token[|token| - 1];
    TrimAfterBlank(piece);
  }

  lemma TokenOfFirst(c: string, token: string, rest: seq<string>)
    requires Trim(Js, c) == CsrfName + token
    ensures TokenIn([c] + rest) == token
  {
    var cs := [c] + rest;
    assert cs != [] && cs[0] == c;
    assert CsrfName <= Trim(Js, c);
    assert Trim(Js, c)[|CsrfName|..] == token;
  }

  lemma TokenSkipsOther(c: string, rest: seq<string>)
    requires !(CsrfName <= Trim(Js, c))
    ensures TokenIn([c] + rest) == TokenIn(rest)
  {
    var cs := [c] + rest;
    assert cs != [] && cs[0] == c && cs[1..] == rest;
  }

  /** A token set by the server is read back from the cookie string. */
  lemma CsrfTokenReadsBack(token: string)
    requires ';' !in token && token != [] && !IsSpace(Js, token[|token| - 1])
    ensures CsrfToken(CsrfName + token) == token
  {
    var piece := CsrfName + token;
    assert [piece] + [] == [piece];
    NamedPiece(token);
    SingleCookie(piece);
    TokenOfFirst(piece, token, []);
  }

  /** ... also behind another cookie that does not carry the name. */
  lemma CsrfTokenBehindOther(other: string, token: string)
    requires ';' !in other && ';' !in token
    requires token != [] && !IsSpace(Js, token[|token| - 1])
    requires !(CsrfName <= Trim(Js, other))
    ensures CsrfToken(other + "; " + CsrfName + token) == token
  {
    var blank := " " + CsrfName + token;
    SecondPieceBlank(other, token);
    BlankNamedPiece(token);
    BehindOther(other, blank, token);
  }

  lemma BehindOther(other: string, blank: string, token: string)
    requires ';' !in other && ';' !in blank
    requires !(CsrfName <= Trim(Js, other)) && Trim(Js, blank) == CsrfName + token
    ensures CsrfToken(other + ";" + blank) == token
  {
    TwoCookies(other, blank);
    TokenOfSecond(other, blank, token);
    TokenOfPieces(other + ";" + blank, [other, blank], token);
  }

  lemma SecondPieceBlank(other: string, token: string)
    ensures other + "; " + CsrfName + token == other + ";" + (" " + CsrfName + token)
  {
  }

  lemma TokenOfPieces(cookie: string, pieces: seq<string>, token: string)
    requires Split(cookie, ';') == pieces && TokenIn(pieces) == token
    ensures CsrfToken(cookie) == token
  {
  }

  lemma TokenOfSecond(a: string, b: string, token: string)
    requires !(CsrfName <= Trim(Js, a)) && Trim(Js, b) == CsrfName + token
    ensures TokenIn([a, b]) == token
  {
    assert [b] + [] == [b];
    assert [a] + [b] == [a, b];
    TokenOfFirst(b, token, []);
    TokenSkipsOther(a, [b]);
  }

  // ---------------------------------------------------------------------
  // Quote doubling (section 2, rule 7 of RFC 4180).

  /** `data.replace(/"/g, '""')` */
  function DoubleQuotes(s: string): (r: string)
    ensures |r| >= |s|
  {
    if s == [] then ""
    else (if s[0] == '"' then "\"\"" else [s[0]]) + DoubleQuotes(s[1..])
  }

  /** The body of a quoted field read back: a doubled quote stands for one
    * quote, and a lone quote would end the field (None). */
  function UndoubleQuotes(r: string): Option<string>
    decreases |r|
  {
    if r == [] then Some("")
    else if r[0] != '"' then
      match UndoubleQuotes(r[1..])
      case Some(t) => Some([r[0]] + t)
      case None => None
    else if |r| >= 2 && r[1] == '"' then
      match UndoubleQuotes(r[2..])
      case Some(t) => Some("\"" + t)
      case None => None
    else None
  }

  lemma {:induction false} QuotesRoundTrip(s: string)
    ensures UndoubleQuotes(DoubleQuotes(s)) == Some(s)
    decreases |s|
  {
    if s != [] {
      QuotesRoundTrip(s[1..]);
      var r := DoubleQuotes(s);
      if s[0] == '"' {
        assert r[2..] == DoubleQuotes(s[1..]);
        assert "\"" + s[1..] == s;
      } else {
        assert r[1..] == DoubleQuotes(s[1..]);
        assert [s[0]] + s[1..] == s;
      }
    }
  }

  /** Text without a quote is written as it is. */
  lemma {:induction false} NoQuotesUnchanged(s: string)
    requires '"' !in s
    ensures DoubleQuotes(s) == s
    decreases |s|
  {
    if s != [] {
      assert s[0] in s;
      NoQuotesUnchanged(s[1..]);
      assert [s[0]] + s[1..] == s;
    }
  }

  // ---------------------------------------------------------------------
  // exportToCsv.

  /** The entries that pass `barcode && typeof barcode === 'object'`. */
  function ObjectsIn(bs: seq<Option<ClientBarcode>>): (vs: seq<ClientBarcode>)
    ensures |vs| <= |bs|
  {
    if bs == [] then []
    else ObjectsIn(bs[..|bs| - 1]) + (match bs[|bs| - 1] case Some(b) => [b] case None => [])
  }

  /** `(barcode.data || '').replace(...)` works on a string and on every
    * falsy value; any other truthy value has no replace and throws. */
  predicate Escapable(b: ClientBarcode)
  {
    b.data.JStr? || !Truthy(b.data)
  }

  function DataText(v: JsValue): string
  {
    if v.JStr? then v.s else ""
  }

  const CsvHeader: string := "ID,Data,Type,Image URL"
  const CsvUriPrefix: string := "data:text/csv;charset=utf-8,"
  const ServerCsvUrl: string := "/api/user/barcodes/export/csv"

  /** The line of the barcode at `index` among the kept entries: a missing
    * id becomes `temp_<index>`, the data has its quotes doubled, the type
    * defaults to 'Unknown' and the image URL to ''. */
  function ExportLine(b: ClientBarcode, index: nat): string
  {
    Or(b.id, "temp_" + NatToDecimal(index)) + ",\"" + DoubleQuotes(DataText(b.data)) + "\",\""
      + Or(b.barcodeType, "Unknown") + "\",\"" + Or(b.imageUrl, "") + "\""
  }

  /** The lines of the kept barcodes, each numbered by its position. */
  function ExportLines(vs: seq<ClientBarcode>): (ls: seq<string>)
    ensures |ls| == |vs|
  {
    Numbered(vs, ExportLine)
  }

  /** `line(v, i)` for each v at position i. */
  function Numbered(vs: seq<ClientBarcode>, line: (ClientBarcode, nat) -> string): (ls: seq<string>)
    ensures |ls| == |vs|
  {
    if vs == [] then []
    else Numbered(vs[..|vs| - 1], line) + [line(vs[|vs| - 1], |vs| - 1)]
  }

  /** Line i of the export is the line of the i-th kept barcode, numbered i. */
  lemma ExportLinesAt(vs: seq<ClientBarcode>, i: nat)
    requires i < |vs|
    ensures ExportLines(vs)[i] == ExportLine(vs[i], i)
  {
    NumberedAt(vs, ExportLine, i);
  }

  lemma {:induction false} NumberedAt(vs: seq<ClientBarcode>, line: (ClientBarcode, nat) -> string, i: nat)
    requires i < |vs|
    ensures Numbered(vs, line)[i] == line(vs[i], i)
  {
    var n := |vs| - 1;
    if i < n {
      NumberedAt(vs[..n], line, i);
    }
  }

  datatype CsvExport =
    | NothingToExport              // 'No barcodes to export'
    | ServerExport(url: string)    // signed in: the server writes the file
    | CsvFile(content: string)     // the text before encodeURI
    | ExportFailed                 // 'Failed to export to CSV: ...'

  /** One more kept barcode adds its line and a newline to the text. */
  lemma LinesStep(vs: seq<ClientBarcode>, i: nat, format: (ClientBarcode, nat) -> string)
    requires i < |vs|
    ensures Terminated([CsvHeader] + Numbered(vs[..i + 1], format))
      == Terminated([CsvHeader] + Numbered(vs[..i], format)) + format(vs[i], i) + "\n"
  {
    var lines := [CsvHeader] + Numbered(vs[..i], format);
    assert vs[..i + 1][..i] == vs[..i];
    assert [CsvHeader] + Numbered(vs[..i + 1], format) == lines + [format(vs[i], i)];
    TerminatedStep(lines, format(vs[i], i));
  }

  /** The forEach over the kept barcodes: None when one of them throws. The
    * line format is a parameter; exportToCSV passes ExportLine. */
  method WriteLines(valid: seq<ClientBarcode>, format: (ClientBarcode, nat) -> string) returns (text: Option<string>)
    ensures text.None? <==> exists i :: 0 <= i < |valid| && !Escapable(valid[i])
    ensures text.Some? ==> text.value == Terminated([CsvHeader] + Numbered(valid, format))
  {
    var content := CsvHeader + "\n";
    assert Terminated([CsvHeader] + Numbered(valid[..0], format)) == content by {
      assert [CsvHeader] + Numbered(valid[..0], format) == [CsvHeader];
      assert [CsvHeader][..0] == [];
    }
    var i := 0;
    while i < |valid|
      invariant 0 <= i <= |valid|
      invariant forall j :: 0 <= j < i ==> Escapable(valid[j])
      invariant content == Terminated([CsvHeader] + Numbered(valid[..i], format))
    {
      var b := valid[i];
      if !Escapable(b) {
        return None;
      }
      LinesStep(valid, i, format);
      content := content + format(b, i) + "\n";
      i := i + 1;
    }
    assert valid[..i] == valid;
    return Some(content);
  }

  method ExportToCsv(userBarcodes: seq<Option<ClientBarcode>>, loggedIn: bool) returns (r: CsvExport)
    ensures userBarcodes == [] <==> r == NothingToExport
    ensures userBarcodes != [] && loggedIn ==> r == ServerExport(ServerCsvUrl)
    ensures r == ExportFailed ==> exists i :: 0 <= i < |ObjectsIn(userBarcodes)| && !Escapable(ObjectsIn(userBarcodes)[i])
    ensures userBarcodes != [] && !loggedIn ==> r.ExportFailed? || r.CsvFile?
    ensures userBarcodes != [] && !loggedIn ==>
      (r.ExportFailed? <==> exists i :: 0 <= i < |ObjectsIn(userBarcodes)| && !Escapable(ObjectsIn(userBarcodes)[i]))
    ensures r.CsvFile? ==>
      r.content == CsvUriPrefix + Terminated([CsvHeader] + ExportLines(ObjectsIn(userBarcodes)))
  {
    if |userBarcodes| == 0 {
      return NothingToExport;
    }
    if loggedIn {
      return ServerExport(ServerCsvUrl);
    }
    var valid := ObjectsIn(userBarcodes);
    var text := WriteLines(valid, ExportLine);
    if text.None? {
      assert exists i :: 0 <= i < |valid| && !Escapable(valid[i]);
      assert exists i :: 0 <= i < |ObjectsIn(userBarcodes)| && !Escapable(ObjectsIn(userBarcodes)[i]);
      r := ExportFailed;
    } else {
      assert !exists i :: 0 <= i < |valid| && !Escapable(valid[i]);
      assert !exists i :: 0 <= i < |ObjectsIn(userBarcodes)| && !Escapable(ObjectsIn(userBarcodes)[i]);
      r := CsvFile(CsvUriPrefix + text.value);
    }
  }

  /** Entries that are null do not take a number: the first object gets
    * `temp_0` even behind a null. */
  lemma NullsTakeNoIndex(b: ClientBarcode)
    requires !Truthy(b.id)
    ensures ObjectsIn([None, Some(b)]) == [b]
    ensures ExportLine(b, 0) == "temp_0" + ",\"" + DoubleQuotes(DataText(b.data)) + "\",\""
      + Or(b.barcodeType, "Unknown") + "\",\"" + Or(b.imageUrl, "") + "\""
  {
    var bs: seq<Option<ClientBarcode>> := [None, Some(b)];
    assert bs[..1] == [None] && bs[..1][..0] == [];
    assert "temp_" + NatToDecimal(0) == "temp_0";
  }

  // ---------------------------------------------------------------------
  // downloadAllBarcodes.

  predicate IsDataUri(v: JsValue)
  {
    v.JStr? && StartsWith(v.s, "data:")
  }

  /** Some entry's image_url is a data URI. */
  predicate HasDataUri(bs: seq<Option<ClientBarcode>>)
  {
    exists i :: 0 <= i < |bs| && bs[i].Some? && IsDataUri(bs[i].value.imageUrl)
  }

  /** `filter(b => b && b.id).map(b => b.id)` */
  function IdsOf(bs: seq<Option<ClientBarcode>>): seq<JsValue>
  {
    if bs == [] then []
    else
      var last := match bs[|bs| - 1] case Some(b) => (if Truthy(b.id) then [b.id] else []) case None => [];
      IdsOf(bs[..|bs| - 1]) + last
  }

  /** `ids.map(id => `id=${id}`).join('&')` */
  function IdQuery(ids: seq<JsValue>): string
  {
    Join(seq(|ids|, i requires 0 <= i < |ids| => "id=" + ToText(ids[i])), '&')
  }

  const AccountZipUrl: string := "/api/user/barcodes/download-zip"
  const QueryZipUrl: string := "/api/barcodes/download-zip?"

  datatype Download =
    | NothingToDownload               // 'No barcodes to download'
    | TemporaryDownload               // downloadTemporaryBarcodes
    | AccountZip(ids: seq<JsValue>)   // POST {ids} to the account endpoint
    | QueryZip(url: string)           // navigate to the query URL

  function DownloadAllBarcodes(bs: seq<Option<ClientBarcode>>, loggedIn: bool): (r: Download)
    ensures r == NothingToDownload <==> bs == []
    ensures r == TemporaryDownload <==> bs != [] && HasDataUri(bs)
    ensures r.AccountZip? <==> bs != [] && !HasDataUri(bs) && loggedIn && IdsOf(bs) != []
    ensures r.AccountZip? ==> r.ids == IdsOf(bs)
    ensures r.QueryZip? ==> r.url == QueryZipUrl + IdQuery(IdsOf(bs))
  {
    if bs == [] then NothingToDownload
    else if HasDataUri(bs) then TemporaryDownload
    else
      var ids := IdsOf(bs);
      if loggedIn && ids != [] then AccountZip(ids)
      else QueryZip(QueryZipUrl + IdQuery(ids))
  }

  /** The ids sent are exactly the truthy ids, in the entries' order. */
  lemma {:induction false} IdsOfMembers(bs: seq<Option<ClientBarcode>>)
    ensures |IdsOf(bs)| <= |bs|
    ensures forall v :: v in IdsOf(bs) <==> exists i :: 0 <= i < |bs| && bs[i].Some? && Truthy(bs[i].value.id) && bs[i].value.id == v
  {
    if bs != [] {
      var init := bs[..|bs| - 1];
      IdsOfMembers(init);
      forall v | (exists i :: 0 <= i < |bs| && bs[i].Some? && Truthy(bs[i].value.id) && bs[i].value.id == v)
        ensures v in IdsOf(bs)
      {
        var i :| 0 <= i < |bs| && bs[i].Some? && Truthy(bs[i].value.id) && bs[i].value.id == v;
        if i < |init| {
          assert init[i] == bs[i];
        }
      }
      forall v | v in IdsOf(bs)
        ensures exists i :: 0 <= i < |bs| && bs[i].Some? && Truthy(bs[i].value.id) && bs[i].value.id == v
      {
        if v in IdsOf(init) {
          var i :| 0 <= i < |init| && init[i].Some? && Truthy(init[i].value.id) && init[i].value.id == v;
          assert bs[i] == init[i];
        }
      }
    }
  }

  /** The query splits back on '&' into one `id=` parameter per id, in
    * order, when no id's text holds '&'. */
  lemma IdQuerySplits(ids: seq<JsValue>)
    requires ids != []
    requires forall i :: 0 <= i < |ids| ==> '&' !in ToText(ids[i])
    ensures |Split(IdQuery(ids), '&')| == |ids|
    ensures forall i :: 0 <= i < |ids| ==> Split(IdQuery(ids), '&')[i] == "id=" + ToText(ids[i])
  {
    var ps := seq(|ids|, i requires 0 <= i < |ids| => "id=" + ToText(ids[i]));
    forall i | 0 <= i < |ps| ensures '&' !in ps[i] {
      assert forall k :: 3 <= k < |ps[i]| ==> ps[i][k] == ToText(ids[i])[k - 3];
    }
    SplitJoin(ps, '&');
  }

  /** A saved sequence from the server has http image URLs and numeric ids:
    * downloading it asks for exactly those ids, in order. */
  lemma SavedSequenceDownloadsItsIds(es: seq<AppServer.SavedEntry>, loggedIn: bool)
    requires es != []
    requires forall k :: 0 <= k < |es| ==> es[k].id > 0 && !StartsWith(es[k].imageUrl, "data:")
    ensures var bs := seq(|es|, k requires 0 <= k < |es| =>
              Some(ClientBarcode(JNum(es[k].id), JStr(es[k].data), JStr(es[k].barcodeType), JStr(es[k].imageUrl), Undefined)));
      IdsOf(bs) == seq(|es|, k requires 0 <= k < |es| => JNum(es[k].id))
      && (loggedIn ==> DownloadAllBarcodes(bs, loggedIn) == AccountZip(IdsOf(bs)))
      && (!loggedIn ==> DownloadAllBarcodes(bs, loggedIn).QueryZip?)
  {
    var bs := seq(|es|, k requires 0 <= k < |es| =>
              Some(ClientBarcode(JNum(es[k].id), JStr(es[k].data), JStr(es[k].barcodeType), JStr(es[k].imageUrl), Undefined)));
    AllIdsKept(es, bs);
    assert !HasDataUri(bs);
  }

  lemma {:induction false} AllIdsKept(es: seq<AppServer.SavedEntry>, bs: seq<Option<ClientBarcode>>)
    requires |bs| == |es|
    requires forall k :: 0 <= k < |es| ==> es[k].id > 0
    requires forall k :: 0 <= k < |es| ==> bs[k] == Some(ClientBarcode(JNum(es[k].id), JStr(es[k].data),
                                             JStr(es[k].barcodeType), JStr(es[k].imageUrl), Undefined))
    ensures IdsOf(bs) == seq(|es|, k requires 0 <= k < |es| => JNum(es[k].id))
    decreases |es|
  {
    if es != [] {
      var n := |es| - 1;
      AllIdsKept(es[..n], bs[..n]);
      assert Truthy(JNum(es[n].id));
    }
  }

  /** The server's temporary items carry their image in image_data only, so
    * the data-URI test on image_url misses them and they are sent to the
    * ZIP endpoints by their `temp_<i>` ids. */
  lemma TemporaryItemsMissTheTemporaryPath(ts: seq<AppServer.TempImage>, loggedIn: bool)
    requires ts != []
    ensures var bs := seq(|ts|, k requires 0 <= k < |ts| =>
              Some(ClientBarcode(JStr(ts[k].id), JStr(ts[k].data), JStr(ts[k].barcodeType), Undefined, JStr(ts[k].imageData))));
      DownloadAllBarcodes(bs, loggedIn) != TemporaryDownload
  {
    var bs := seq(|ts|, k requires 0 <= k < |ts| =>
              Some(ClientBarcode(JStr(ts[k].id), JStr(ts[k].data), JStr(ts[k].barcodeType), Undefined, JStr(ts[k].imageData))));
    assert !HasDataUri(bs);
  }

  // ---------------------------------------------------------------------
  // downloadTemporaryBarcodes (the ZIP branch).

  /** `b && (b.image_url || b.image_data) && b.data` */
  predicate Downloadable(b: ClientBarcode)
  {
    (Truthy(b.imageUrl) || Truthy(b.imageData)) && Truthy(b.data)
  }

  function DownloadableIn(bs: seq<Option<ClientBarcode>>): (vs: seq<ClientBarcode>)
    ensures |vs| <= |bs|
    ensures forall i :: 0 <= i < |vs| ==> Downloadable(vs[i])
  {
    if bs == [] then []
    else
      var last := match bs[|bs| - 1] case Some(b) => (if Downloadable(b) then [b] else []) case None => [];
      DownloadableIn(bs[..|bs| - 1]) + last
  }

  datatype ZipEntry =
    | Inline(filename: string, base64: string)   // from a data URI
    | Fetch(filename: string, url: string)       // fetched from the server
    | Skipped(filename: string)                  // logged and counted only

  datatype TempPlan = NoValidBarcodes | Zip(entries: seq<ZipEntry>)

  function ZipFilename(b: ClientBarcode, index: nat): string
  {
    "barcode_" + NatToDecimal(index + 1) + "_" + ToText(b.data) + ".png"
  }

  /** A root-relative URL without a query asks for the image itself. */
  function FetchUrl(url: string): (r: string)
    ensures url <= r
    ensures r != url <==> (url != [] && url[0] == '/' && '?' !in url)
  {
    if url != [] && url[0] == '/' && '?' !in url then url + "?download=true" else url
  }

  function ZipEntryOf(b: ClientBarcode, index: nat): (e: ZipEntry)
    ensures e.filename == ZipFilename(b, index)
  {
    var filename := ZipFilename(b, index);
    if IsDataUri(b.imageData) then
      var parts := Split(b.imageData.s, ',');
      if |parts| > 1 then Inline(filename, parts[1]) else Skipped(filename)
    else if Truthy(b.imageUrl) then Fetch(filename, FetchUrl(ToText(b.imageUrl)))
    else Skipped(filename)
  }

  function TemporaryDownloadPlan(bs: seq<Option<ClientBarcode>>): (p: TempPlan)
    ensures p.NoValidBarcodes? <==> DownloadableIn(bs) == []
    ensures p.Zip? ==> |p.entries| == |DownloadableIn(bs)|
    ensures p.Zip? ==> forall i :: 0 <= i < |p.entries| ==> p.entries[i] == ZipEntryOf(DownloadableIn(bs)[i], i)
  {
    var vs := DownloadableIn(bs);
    if vs == [] then NoValidBarcodes
    else Zip(seq(|vs|, i requires 0 <= i < |vs| => ZipEntryOf(vs[i], i)))
  }

  /** After `barcode_` a file name reads as its position plus one. */
  lemma ZipFilenameNumber(b: ClientBarcode, i: nat)
    ensures |ZipFilename(b, i)| >= 8 && ParseInt(ZipFilename(b, i)[8..]) == Some(i + 1)
  {
    var tail := "_" + ToText(b.data) + ".png";
    var d := NatToDecimal(i + 1);
    assert ZipFilename(b, i) == "barcode_" + (d + tail);
    assert |"barcode_"| == 8;
    assert ZipFilename(b, i)[8..] == d + tail;
    assert tail[0] == '_';
    ParseIntIgnoresTail(i + 1, tail);
  }

  /** Two entries of one ZIP never share a file name. */
  lemma ZipFilenamesDistinct(a: ClientBarcode, i: nat, b: ClientBarcode, j: nat)
    requires ZipFilename(a, i) == ZipFilename(b, j)
    ensures i == j
  {
    ZipFilenameNumber(a, i);
    ZipFilenameNumber(b, j);
  }

  /** The payload of the server's data URI is the base64 text after the
    * comma (section 3 of RFC 2397). */
  lemma DataUriPayload(b64: string)
    requires ',' !in b64
    ensures Split("data:image/png;base64," + b64, ',') == ["data:image/png;base64", b64]
  {
    var head := "data:image/png;base64";
    var rest := [','] + b64;
    assert "data:image/png;base64," + b64 == head + rest;
    assert ',' !in head;
    SplitPrefix(b64, "", ',');
    assert b64 + "" == b64;
    assert rest[0] == ',' && rest[1..] == b64;
    assert Split(rest, ',') == [""] + [b64];
    SplitPrefix(head, rest, ',');
    assert head + "" == head;
  }

  /** A temporary item from the server goes into the ZIP inline, under its
    * numbered file name. */
  lemma TemporaryItemGoesInline(t: AppServer.TempImage, b64: string, index: nat)
    requires t.imageData == "data:image/png;base64," + b64 && ',' !in b64
    ensures var b := ClientBarcode(JStr(t.id), JStr(t.data), JStr(t.barcodeType), Undefined, JStr(t.imageData));
      ZipEntryOf(b, index) == Inline(ZipFilename(b, index), b64)
  {
    DataUriPayload(b64);
    assert StartsWith(t.imageData, "data:");
  }
}
