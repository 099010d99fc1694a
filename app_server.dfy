/*
 * The Flask back end (app.py; fixed_function.py holds the same
 * generate_sequence handler as app.py:175-388): request merging, the
 * length check on barcode data, the rate-limit tier, the per-index loops of
 * the sequence endpoints, the save decision of the single-barcode and QR
 * endpoints, and the owner check when an image is fetched.
 *
 * Images come from an oracle `Renderer` (the python-barcode and qrcode
 * libraries are outside the model), and the database is the value `Store`:
 * a map from id to record with the next id the database will hand out.
 */
module AppServer {
  import opened Text

  // ---------------------------------------------------------------------
  // Request values.

  /** A JSON or form value as the handlers see it. */
  datatype Value = VStr(s: string) | VInt(i: int) | VBool(b: bool) | VNull

  /** Python's str(v), used by the f-strings. */
  function PyStr(v: Value): string
  {
    match v
    case VStr(s) => s
    case VInt(i) => IntToDecimal(i)
    case VBool(b) => if b then "True" else "False"
    case VNull => "None"
  }

  /** Python truthiness. */
  predicate Truthy(v: Value)
  {
    match v
    case VStr(s) => s != ""
    case VInt(i) => i != 0
    case VBool(b) => b
    case VNull => false
  }

  /** Python's int(v); None stands for the ValueError or TypeError it raises. */
  function PyIntOf(v: Value): (r: Option<int>)
    ensures v.VInt? ==> r == Some(v.i)
    ensures v.VBool? ==> r == Some(if v.b then 1 else 0)
    ensures v.VNull? ==> r == None
    ensures v.VStr? ==> r == PyParseInt(v.s)
  {
    match v
    case VStr(s) => PyParseInt(s)
    case VInt(i) => Some(i)
    case VBool(b) => Some(if b then 1 else 0)
    case VNull => None
  }

  /** `try: x = int(v) except (ValueError, TypeError): x = fallback` */
  function IntOr(v: Value, fallback: int): int
  {
    match PyIntOf(v)
    case Some(i) => i
    case None => fallback
  }

  /** A number sent as text is read back as that number, and text that is
    * not a number falls back. */
  lemma IntOrOfText(n: int, fallback: int)
    ensures IntOr(VStr(IntToDecimal(n)), fallback) == n
    ensures IntOr(VStr(""), fallback) == fallback
  {
    PyParseIntRoundTrip(n);
    assert Trim(Py, "") == "";
  }

  /** `data.get(key, default)` */
  function Get(data: map<string, Value>, key: string, default: Value): Value
  {
    if key in data then data[key] else default
  }

  datatype Request = Request(
    isJson: bool,
    json: map<string, Value>,
    form: map<string, string>,
    raw: Option<map<string, Value>>)  // the body parsed as a JSON object, None if empty or unparsable

  /** The fields that override the defaults: the JSON body, else a non-empty
    * form, else a raw body that parses as a JSON object, else nothing. */
  function Body(req: Request): map<string, Value>
  {
    if req.isJson then req.json
    else if |req.form| > 0 then map k | k in req.form :: VStr(req.form[k])
    else if req.raw.Some? then req.raw.value
    else map[]
  }

  /** extract_request_data: `{**defaults, **body}`. Every key of either is
    * present, the body's value wins, and a default shows through only where
    * the body is silent. */
  function ExtractRequestData(req: Request, defaults: map<string, Value>): (r: map<string, Value>)
    ensures r.Keys == defaults.Keys + Body(req).Keys
    ensures forall k :: k in Body(req) ==> r[k] == Body(req)[k]
    ensures forall k :: k in defaults && k !in Body(req) ==> r[k] == defaults[k]
    ensures req.isJson ==> forall k :: k in req.json ==> r[k] == req.json[k]
    ensures !req.isJson && |req.form| > 0 ==> forall k :: k in req.form ==> r[k] == VStr(req.form[k])
  {
    defaults + Body(req)
  }

  /** A request with no usable body yields the defaults unchanged. */
  lemma EmptyRequestGivesDefaults(defaults: map<string, Value>)
    ensures ExtractRequestData(Request(false, map[], map[], None), defaults) == defaults
  {
    var r := ExtractRequestData(Request(false, map[], map[], None), defaults);
    assert Body(Request(false, map[], map[], None)) == map[];
    assert r.Keys == defaults.Keys;
  }

  // ---------------------------------------------------------------------
  // Users, rate limits and the save decision.

  datatype Principal = Anonymous | Member(id: nat, premium: bool)

  /** get_user_rate_limits */
  function GetUserRateLimits(p: Principal): (r: string)
    ensures p.Anonymous? ==> r == "100 per day, 20 per hour"
    ensures p.Member? && p.premium ==> r == "1000 per day, 100 per hour"
    ensures p.Member? && !p.premium ==> r == "500 per day, 50 per hour"
  {
    if p.Member? then
      if p.premium then "1000 per day, 100 per hour" else "500 per day, 50 per hour"
    else "100 per day, 20 per hour"
  }

  /** What was asked for: a string must read 'true' in any case; any other
    * value counts by its truthiness. */
  predicate SaveRequested(v: Value)
  {
    match v
    case VStr(s) => Lower(s) == "true"
    case _ => Truthy(v)
  }

  /** `save_to_system and save_to_account`, then used as a condition. */
  function EffectiveSave(v: Value, authenticated: bool): (r: bool)
    ensures r ==> authenticated
    ensures r <==> SaveRequested(v) && authenticated
    ensures v.VStr? ==> (r <==> authenticated && Lower(v.s) == "true")
  {
    var requested := match v case VStr(s) => VBool(Lower(s) == "true") case _ => v;
    Truthy(requested) && authenticated
  }

  /** 'false' is a non-empty, hence truthy, string, but it is not a request
    * to save; 'TRUE' is. */
  lemma SaveStrings()
    ensures !EffectiveSave(VStr("false"), true)
    ensures EffectiveSave(VStr("TRUE"), true)
    ensures !EffectiveSave(VStr("TRUE"), false)
  {
    assert Lower("false") == "false";
    assert Lower("TRUE") == "true";
  }

  function UserIdOf(p: Principal): Option<nat>
  {
    if p.Member? then Some(p.id) else None
  }

  // ---------------------------------------------------------------------
  // validate_barcode_data.

  datatype Validation = Valid | Invalid(message: string)

  /** Lengths the check accepts for a type; types other than the three
    * GS1 ones accept any length. */
  predicate LengthAccepted(barcodeType: string, n: nat)
  {
    (barcodeType == "ean13" ==> n == 12 || n == 13)
    && (barcodeType == "ean8" ==> n == 7 || n == 8)
    && (barcodeType == "upca" ==> n == 11 || n == 12)
  }

  function LengthMessage(barcodeType: string): string
  {
    if barcodeType == "ean13" then "EAN-13 must be 12 or 13 digits"
    else if barcodeType == "ean8" then "EAN-8 must be 7 or 8 digits"
    else "UPC-A must be 11 or 12 digits"
  }

  /** A length-only check (no digits or check digit are examined): data is
    * accepted exactly when it is non-empty and of an accepted length. */
  function ValidateBarcodeData(data: string, barcodeType: string): (r: Validation)
    ensures r.Valid? <==> data != "" && LengthAccepted(barcodeType, |data|)
    ensures data == "" ==> r == Invalid("Barcode data is required")
    ensures data != "" && r.Invalid? ==> r.message == LengthMessage(barcodeType)
  {
    if data == "" then Invalid("Barcode data is required")
    else if barcodeType == "ean13" && !(|data| == 12 || |data| == 13) then Invalid("EAN-13 must be 12 or 13 digits")
    else if barcodeType == "ean8" && !(|data| == 7 || |data| == 8) then Invalid("EAN-8 must be 7 or 8 digits")
    else if barcodeType == "upca" && !(|data| == 11 || |data| == 12) then Invalid("UPC-A must be 11 or 12 digits")
    else Valid
  }

  /** No GS1 check is made: twelve letters pass as EAN-13 data. */
  lemma LettersPassAsEan13()
    ensures ValidateBarcodeData("ABCDEFGHIJKL", "ean13") == Valid
  {
  }

  // ---------------------------------------------------------------------
  // Sequence items.

  datatype SequenceParams = SequenceParams(
    prefix: string, suffix: string, barcodeType: string,
    start: int, count: int, padLength: int, save: bool)

  /** The request fields of generate_sequence / generate_bulk_sequence after
    * conversion; `countFallback` is 10 for the first and 100 for the second.
    * A missing field takes its default, and a number that int() refuses
    * falls back to it. */
  function ParseSequenceParams(data: map<string, Value>, authenticated: bool, countFallback: int): (p: SequenceParams)
    ensures p.save ==> authenticated
    ensures "prefix" !in data ==> p.prefix == ""
    ensures "suffix" !in data ==> p.suffix == ""
    ensures "barcode_type" !in data ==> p.barcodeType == "code128"
    ensures "start" !in data ==> p.start == 1
    ensures "count" !in data ==> p.count == countFallback
    ensures "pad_length" !in data ==> p.padLength == 0
    ensures "save_to_system" !in data ==> !p.save
    ensures "start" in data && PyIntOf(data["start"]).None? ==> p.start == 1
    ensures "count" in data && PyIntOf(data["count"]).None? ==> p.count == countFallback
    ensures "pad_length" in data && PyIntOf(data["pad_length"]).None? ==> p.padLength == 0
  {
    PyParseIntRoundTrip(countFallback);
    DefaultTextsRead();
    SequenceParams(
      PyStr(Get(data, "prefix", VStr(""))),
      PyStr(Get(data, "suffix", VStr(""))),
      PyStr(Get(data, "barcode_type", VStr("code128"))),
      IntOr(Get(data, "start", VStr("1")), 1),
      IntOr(Get(data, "count", VStr(IntToDecimal(countFallback))), countFallback),
      IntOr(Get(data, "pad_length", VStr("0")), 0),
      EffectiveSave(Get(data, "save_to_system", VStr("false")), authenticated))
  }

  /** The default texts '1' and '0' read as 1 and 0. */
  lemma DefaultTextsRead()
    ensures PyParseInt("1") == Some(1) && PyParseInt("0") == Some(0)
  {
    PyParseIntRoundTrip(1);
    PyParseIntRoundTrip(0);
    assert IntToDecimal(1) == "1" && IntToDecimal(0) == "0";
  }

  /** A start, count or padding sent as decimal text is read as that number. */
  lemma SequenceNumbersReadBack(data: map<string, Value>, authenticated: bool, countFallback: int, key: string, n: int)
    requires key in data && data[key] == VStr(IntToDecimal(n))
    ensures key == "start" ==> ParseSequenceParams(data, authenticated, countFallback).start == n
    ensures key == "count" ==> ParseSequenceParams(data, authenticated, countFallback).count == n
    ensures key == "pad_length" ==> ParseSequenceParams(data, authenticated, countFallback).padLength == n
  {
    PyParseIntRoundTrip(n);
  }

  /** The digit count a standalone EAN-13, EAN-8 or UPC-A number is padded
    * to (its last digit being the check digit). */
  function StandaloneWidth(barcodeType: string): Option<nat>
  {
    if barcodeType == "ean13" then Some(12)
    else if barcodeType == "ean8" then Some(7)
    else if barcodeType == "upca" then Some(11)
    else None
  }

  /** number_str for the number n. */
  function NumberText(n: int, padLength: int, barcodeType: string, standalone: bool): string
  {
    var digits := if padLength > 0 then ZFill(IntToDecimal(n), padLength) else IntToDecimal(n);
    var width := StandaloneWidth(barcodeType);
    if standalone && width.Some? && |digits| < width.value then ZFill(digits, width.value) else digits
  }

  function Standalone(p: SequenceParams): bool
  {
    p.prefix == "" && p.suffix == ""
  }

  /** barcode_data for index i. */
  function ItemData(p: SequenceParams, i: nat): string
  {
    p.prefix + NumberText(p.start + i, p.padLength, p.barcodeType, Standalone(p)) + p.suffix
  }

  function Max(a: int, b: int): int
  {
    if a >= b then a else b
  }

  /** The number text reads back as the number, and is at least as long as
    * the padding asks. */
  lemma NumberTextReadsBack(n: int, padLength: int, barcodeType: string, standalone: bool)
    ensures PyParseInt(NumberText(n, padLength, barcodeType, standalone)) == Some(n)
    ensures |NumberText(n, padLength, barcodeType, standalone)| >= padLength
  {
    var s := IntToDecimal(n);
    var digits := if padLength > 0 then ZFill(s, padLength) else s;
    var width := StandaloneWidth(barcodeType);
    if standalone && width.Some? && |digits| < width.value {
      if padLength > 0 && |s| < padLength {
        ZFillTwice(s, padLength, width.value);
        PyParseIntZFill(n, Max(padLength, width.value));
      } else {
        assert digits == s;
        PyParseIntZFill(n, width.value);
      }
    } else if padLength > 0 {
      PyParseIntZFill(n, padLength);
    } else {
      PyParseIntRoundTrip(n);
    }
  }

  /** data is prefix, then a number text that reads back as n and is at
    * least padLength long, then suffix. */
  predicate FramedNumber(data: string, prefix: string, suffix: string, n: int, padLength: int)
  {
    prefix <= data && |prefix| + |suffix| <= |data| && data[|data| - |suffix|..] == suffix &&
    var m := data[|prefix|..|data| - |suffix|]; PyParseInt(m) == Some(n) && |m| >= padLength
  }

  /** Item i is the prefix, then a number text that reads back as start + i
    * and is at least padLength long, then the suffix. */
  lemma ItemDataShape(p: SequenceParams, i: nat)
    ensures FramedNumber(ItemData(p, i), p.prefix, p.suffix, p.start + i, p.padLength)
  {
    var n := p.start + i;
    NumberTextFramed(p, n, NumberText(n, p.padLength, p.barcodeType, Standalone(p)));
  }

  lemma NumberTextFramed(p: SequenceParams, n: int, middle: string)
    requires middle == NumberText(n, p.padLength, p.barcodeType, Standalone(p))
    ensures FramedNumber(p.prefix + middle + p.suffix, p.prefix, p.suffix, n, p.padLength)
  {
    NumberTextReadsBack(n, p.padLength, p.barcodeType, Standalone(p));
    Framed(p.prefix + middle + p.suffix, p.prefix, middle, p.suffix, n, p.padLength);
  }

  lemma Framed(data: string, prefix: string, middle: string, suffix: string, n: int, padLength: int)
    requires data == prefix + middle + suffix
    requires PyParseInt(middle) == Some(n) && |middle| >= padLength
    ensures FramedNumber(data, prefix, suffix, n, padLength)
  {
    assert data[|prefix|..|data| - |suffix|] == middle;
  }

  /** With an empty prefix and suffix, EAN-13 / EAN-8 / UPC-A numbers are
    * at least 12 / 7 / 11 characters long, and exactly that long when
    * neither the number nor the padding is longer. */
  lemma StandaloneWidthReached(p: SequenceParams, i: nat)
    requires Standalone(p) && StandaloneWidth(p.barcodeType).Some?
    ensures var w := StandaloneWidth(p.barcodeType).value;
      |ItemData(p, i)| == Max(w, Max(p.padLength, |IntToDecimal(p.start + i)|))
  {
    assert ItemData(p, i) == NumberText(p.start + i, p.padLength, p.barcodeType, true) by {
      assert p.prefix == "" && p.suffix == "";
    }
    NumberTextWidth(p.start + i, p.padLength, p.barcodeType);
  }

  lemma NumberTextWidth(n: int, padLength: int, barcodeType: string)
    requires StandaloneWidth(barcodeType).Some?
    ensures var w := StandaloneWidth(barcodeType).value;
      |NumberText(n, padLength, barcodeType, true)| == Max(w, Max(padLength, |IntToDecimal(n)|))
  {
  }

  /** Hence a standalone number with at most 12 digits and padding of at
    * most 12 always passes the EAN-13 length check (7 for EAN-8, 11 for
    * UPC-A). */
  lemma StandaloneItemsPassValidation(p: SequenceParams, i: nat)
    requires Standalone(p) && StandaloneWidth(p.barcodeType).Some?
    requires p.padLength <= StandaloneWidth(p.barcodeType).value
    requires |IntToDecimal(p.start + i)| <= StandaloneWidth(p.barcodeType).value
    ensures ValidateBarcodeData(ItemData(p, i), p.barcodeType) == Valid
  {
    StandaloneWidthReached(p, i);
  }

  /** prefix TEST, start 1, padding 3, suffix -TEMP: the first item is
    * TEST001-TEMP. */
  lemma PaddedItemExample()
    ensures ItemData(SequenceParams("TEST", "-TEMP", "code128", 1, 1, 3, false), 0) == "TEST001-TEMP"
  {
    assert NatToDecimal(1) == "1";
    assert IntToDecimal(1) == "1";
    assert Zeros(2) == "00";
    assert ZFill("1", 3) == "001";
  }

  lemma ZFillTwice(s: string, a: int, b: int)
    requires |s| < a
    ensures ZFill(ZFill(s, a), b) == ZFill(s, Max(a, b))
  {
    if b > a {
      if s != [] && (s[0] == '+' || s[0] == '-') {
        ZFillTwiceSigned(s, a, b);
      } else {
        ZFillTwiceUnsigned(s, a, b);
      }
    }
  }

  lemma ZFillTwiceSigned(s: string, a: int, b: int)
    requires |s| < a < b && s != [] && (s[0] == '+' || s[0] == '-')
    ensures ZFill(ZFill(s, a), b) == ZFill(s, b)
  {
    var z := ZFill(s, a);
    var p, q := Zeros(a - |s|), Zeros(b - a);
    assert z == [s[0]] + p + s[1..];
    SignAfterZeros(s[0], p, s[1..]);
    assert ZFill(z, b) == [s[0]] + q + (p + s[1..]);
    ZerosConcat(b - a, a - |s|);
    Regroup([s[0]], q, p, s[1..]);
  }

  lemma SignAfterZeros(c: char, p: string, t: string)
    ensures ([c] + p + t)[0] == c && ([c] + p + t)[1..] == p + t
  {
    assert [c] + p + t == [c] + (p + t);
  }

  lemma Regroup(w: string, x: string, y: string, z: string)
    ensures w + x + (y + z) == w + (x + y) + z
  {
  }

  lemma ZFillTwiceUnsigned(s: string, a: int, b: int)
    requires |s| < a < b && !(s != [] && (s[0] == '+' || s[0] == '-'))
    ensures ZFill(ZFill(s, a), b) == ZFill(s, b)
  {
    var z := ZFill(s, a);
    var p, q := Zeros(a - |s|), Zeros(b - a);
    assert z == p + s && z[0] == '0';
    assert ZFill(z, b) == q + (p + s);
    ZerosConcat(b - a, a - |s|);
    assert q + (p + s) == (q + p) + s;
  }

  lemma ZerosConcat(m: nat, n: nat)
    ensures Zeros(m) + Zeros(n) == Zeros(m + n)
  {
  }

  // ---------------------------------------------------------------------
  // What happens to one index.

  datatype RenderResult = Png(base64: string) | RenderError(message: string)

  /** generate_barcode_image as an oracle on (data, barcode type). */
  type Renderer = (string, string) -> RenderResult

  datatype Record = Record(
    data: string, barcodeType: string, filename: string,
    isDynamic: Value, redirectUrl: Value, userId: Option<nat>)

  datatype Failure = Failure(index: nat, data: string, error: string)

  datatype TempImage = TempImage(id: string, data: string, barcodeType: string, imageData: string)

  datatype Job = Job(params: SequenceParams, userId: Option<nat>, timestamp: string, render: Renderer)

  /** What the loop does with index i: a failed entry, a record added to the
    * session, or a temporary image. */
  datatype ItemOutcome = Rejected(failure: Failure) | Queued(record: Record) | Rendered(image: TempImage)

  /** The message when no image comes back: the renderer's own error text is
    * only logged, and the handler raises a fixed one. */
  const ImageFailure: string := "Image generation failed: Failed to generate barcode image"

  function Filename(barcodeType: string, timestamp: string, i: nat): string
  {
    barcodeType + "_" + timestamp + "_" + IntToDecimal(i) + ".png"
  }

  function TempId(i: nat): string
  {
    "temp_" + IntToDecimal(i)
  }

  /** Index i is rejected when its data fails the length check or (when not
    * saving) cannot be rendered; a saved item is only queued, never rendered,
    * and it belongs to the signed-in user. */
  function OutcomeOf(job: Job, i: nat): (o: ItemOutcome)
    ensures o.Rejected? ==> o.failure.index == i && o.failure.data == ItemData(job.params, i)
    ensures o.Rejected? <==> (ValidateBarcodeData(ItemData(job.params, i), job.params.barcodeType).Invalid?
      || (!job.params.save && job.render(ItemData(job.params, i), job.params.barcodeType).RenderError?))
    ensures o.Queued? <==> job.params.save && ValidateBarcodeData(ItemData(job.params, i), job.params.barcodeType).Valid?
    ensures o.Queued? ==> o.record.data == ItemData(job.params, i) && o.record.userId == job.userId
    ensures o.Rendered? ==> !job.params.save && o.image.id == TempId(i) && o.image.data == ItemData(job.params, i)
  {
    var p := job.params;
    var data := ItemData(p, i);
    var v := ValidateBarcodeData(data, p.barcodeType);
    if v.Invalid? then Rejected(Failure(i, data, v.message))
    else if p.save then Queued(Record(data, p.barcodeType, Filename(p.barcodeType, job.timestamp, i), VBool(false), VNull, job.userId))
    else match job.render(data, p.barcodeType)
      case Png(b) => Rendered(TempImage(TempId(i), data, p.barcodeType, "data:image/png;base64," + b))
      case RenderError(_) => Rejected(Failure(i, data, ImageFailure))
  }

  /** The outcomes of indices 0 .. n-1. */
  function Outcomes(job: Job, n: nat): (os: seq<ItemOutcome>)
    ensures |os| == n
  {
    seq(n, i requires 0 <= i => OutcomeOf(job, i))
  }

  function FailuresIn(os: seq<ItemOutcome>): seq<Failure>
  {
    if os == [] then []
    else FailuresIn(os[..|os| - 1]) + (match os[|os| - 1] case Rejected(f) => [f] case _ => [])
  }

  function RecordsIn(os: seq<ItemOutcome>): seq<Record>
  {
    if os == [] then []
    else RecordsIn(os[..|os| - 1]) + (match os[|os| - 1] case Queued(r) => [r] case _ => [])
  }

  function ImagesIn(os: seq<ItemOutcome>): seq<TempImage>
  {
    if os == [] then []
    else ImagesIn(os[..|os| - 1]) + (match os[|os| - 1] case Rendered(t) => [t] case _ => [])
  }

  function Failures(job: Job, n: nat): seq<Failure> { FailuresIn(Outcomes(job, n)) }
  function Records(job: Job, n: nat): seq<Record> { RecordsIn(Outcomes(job, n)) }
  function Images(job: Job, n: nat): seq<TempImage> { ImagesIn(Outcomes(job, n)) }

  /** Every outcome lands in exactly one of the three lists. */
  lemma {:induction false} PartitionCounts(os: seq<ItemOutcome>)
    ensures |FailuresIn(os)| + |RecordsIn(os)| + |ImagesIn(os)| == |os|
    decreases |os|
  {
    if os != [] {
      PartitionCounts(os[..|os| - 1]);
    }
  }

  /** Outcomes whose failed entries carry their own position. */
  predicate IndexedFailures(os: seq<ItemOutcome>)
  {
    forall i :: 0 <= i < |os| && os[i].Rejected? ==> os[i].failure.index == i
  }

  /** The failed list is exactly the rejected outcomes, in increasing index
    * order. */
  lemma {:induction false} FailuresInOrder(os: seq<ItemOutcome>)
    requires IndexedFailures(os)
    ensures forall k :: 0 <= k < |FailuresIn(os)| ==>
      FailuresIn(os)[k].index < |os| && os[FailuresIn(os)[k].index] == Rejected(FailuresIn(os)[k])
    ensures forall a, b :: 0 <= a < b < |FailuresIn(os)| ==> FailuresIn(os)[a].index < FailuresIn(os)[b].index
    ensures forall i :: 0 <= i < |os| && os[i].Rejected? ==> os[i].failure in FailuresIn(os)
    decreases |os|
  {
    if os != [] {
      var init := os[..|os| - 1];
      assert IndexedFailures(init) by {
        forall i | 0 <= i < |init| && init[i].Rejected? ensures init[i].failure.index == i {
          assert init[i] == os[i];
        }
      }
      FailuresInOrder(init);
      forall i | 0 <= i < |init| ensures init[i] == os[i] { }
    }
  }

  /** Saving and rendering exclude each other: nothing is rendered when
    * saving and nothing is queued otherwise. */
  lemma {:induction false} ModesExclusive(job: Job, n: nat)
    ensures job.params.save ==> Images(job, n) == []
    ensures !job.params.save ==> Records(job, n) == []
    decreases n
  {
    if n > 0 {
      ModesExclusive(job, n - 1);
      var os := Outcomes(job, n);
      assert os[..n - 1] == Outcomes(job, n - 1);
    }
  }

  /** The outcomes of a job carry their own index in their failed entries,
    * so FailuresInOrder applies to them. */
  lemma OutcomesIndexed(job: Job, n: nat)
    ensures IndexedFailures(Outcomes(job, n))
  {
    var os := Outcomes(job, n);
    forall i | 0 <= i < n && os[i].Rejected? ensures os[i].failure.index == i {
      var o := OutcomeOf(job, i);
      assert os[i] == o;
    }
  }

  lemma StepLists(job: Job, n: nat)
    ensures var o := OutcomeOf(job, n);
      && Failures(job, n + 1) == Failures(job, n) + (if o.Rejected? then [o.failure] else [])
      && Records(job, n + 1) == Records(job, n) + (if o.Queued? then [o.record] else [])
      && Images(job, n + 1) == Images(job, n) + (if o.Rendered? then [o.image] else [])
  {
    var os := Outcomes(job, n);
    assert Outcomes(job, n + 1) == os + [OutcomeOf(job, n)];
  }

  /** The body of the loop for one index: validate, then either queue a
    * record (saving) or render an image (not saving). */
  method ProcessIndex(job: Job, i: nat, records: seq<Record>, images: seq<TempImage>, failed: seq<Failure>)
    returns (records': seq<Record>, images': seq<TempImage>, failed': seq<Failure>)
    ensures var o := OutcomeOf(job, i);
      && records' == records + (if o.Queued? then [o.record] else [])
      && images' == images + (if o.Rendered? then [o.image] else [])
      && failed' == failed + (if o.Rejected? then [o.failure] else [])
  {
    var p := job.params;
    records', images', failed' := records, images, failed;
    var barcodeData := ItemData(p, i);
    var validation := ValidateBarcodeData(barcodeData, p.barcodeType);
    if validation.Invalid? {
      failed' := failed' + [Failure(i, barcodeData, validation.message)];
      return;
    }
    if p.save {
      records' := records' + [Record(barcodeData, p.barcodeType, Filename(p.barcodeType, job.timestamp, i), VBool(false), VNull, job.userId)];
    } else {
      match job.render(barcodeData, p.barcodeType) {
        case Png(b) =>
          images' := images' + [TempImage(TempId(i), barcodeData, p.barcodeType, "data:image/png;base64," + b)];
        case RenderError(_) =>
          failed' := failed' + [Failure(i, barcodeData, ImageFailure)];
      }
    }
  }

  /** Indices from .. to-1 in order: `for i in range(count)` of
    * generate_sequence, and one batch of generate_bulk_sequence. */
  method GenerateItems(job: Job, from: nat, to: nat, records: seq<Record>, images: seq<TempImage>, failed: seq<Failure>)
    returns (records': seq<Record>, images': seq<TempImage>, failed': seq<Failure>)
    requires from <= to
    requires records == Records(job, from) && images == Images(job, from) && failed == Failures(job, from)
    ensures records' == Records(job, to) && images' == Images(job, to) && failed' == Failures(job, to)
    ensures job.params.save ==> records <= records'
    ensures !job.params.save ==> records' == records
  {
    records', images', failed' := records, images, failed;
    var i := from;
    while i < to
      invariant from <= i <= to
      invariant records' == Records(job, i) && images' == Images(job, i) && failed' == Failures(job, i)
      invariant job.params.save ==> records <= records'
      invariant !job.params.save ==> records' == records
    {
      records', images', failed' := ProcessIndex(job, i, records', images', failed');
      StepLists(job, i);
      i := i + 1;
    }
  }

  // ---------------------------------------------------------------------
  // The database.

  datatype Store = Store(records: map<nat, Record>, nextId: nat)

  /** Ids start at 1 (the database's autoincrement), and every stored id is
    * below the next id to be handed out. */
  predicate ValidStore(s: Store)
  {
    s.nextId >= 1 && forall id :: id in s.records ==> id < s.nextId
  }

  /** Adding records and committing: the k-th record gets id nextId + k. */
  function Commit(s: Store, rs: seq<Record>): (t: Store)
    ensures t.nextId == s.nextId + |rs|
    decreases |rs|
  {
    if rs == [] then s else Commit(Store(s.records[s.nextId := rs[0]], s.nextId + 1), rs[1..])
  }

  /** A commit keeps every record that was there, stores the k-th new record
    * under nextId + k, adds no other id, and keeps the store valid. */
  lemma {:induction false} CommitStores(s: Store, rs: seq<Record>)
    requires ValidStore(s)
    ensures ValidStore(Commit(s, rs))
    ensures forall id :: id in s.records ==> id in Commit(s, rs).records && Commit(s, rs).records[id] == s.records[id]
    ensures forall id: nat :: s.nextId <= id < s.nextId + |rs| ==>
      id in Commit(s, rs).records && Commit(s, rs).records[id] == rs[id - s.nextId]
    ensures forall id :: id in Commit(s, rs).records ==> id in s.records || s.nextId <= id
    decreases |rs|
  {
    if rs != [] {
      var s1 := Store(s.records[s.nextId := rs[0]], s.nextId + 1);
      assert Commit(s, rs) == Commit(s1, rs[1..]);
      CommitStores(s1, rs[1..]);
    }
  }

  /** Committing in two batches is committing once. */
  lemma {:induction false} CommitTwice(s: Store, a: seq<Record>, b: seq<Record>)
    ensures Commit(Commit(s, a), b) == Commit(s, a + b)
    decreases |a|
  {
    if a == [] {
      assert a + b == b;
    } else {
      var s1 := Store(s.records[s.nextId := a[0]], s.nextId + 1);
      CommitTwice(s1, a[1..], b);
      assert Commit(s, a) == Commit(s1, a[1..]);
      assert (a + b)[0] == a[0] && (a + b)[1..] == a[1..] + b;
      assert Commit(s, a + b) == Commit(s1, a[1..] + b);
    }
  }

  // ---------------------------------------------------------------------
  // The sequence endpoints.

  datatype SavedEntry = SavedEntry(id: nat, data: string, barcodeType: string, imageUrl: string)

  datatype SequenceResponse =
    | SequenceError(status: nat, error: string)
    | SavedSequence(message: string, barcodes: seq<SavedEntry>, failed: Option<seq<Failure>>)
    | TempSequence(message: string, images: seq<TempImage>, failed: Option<seq<Failure>>)

  /** `url_for('get_barcode_image', barcode_id=id, _external=True)` */
  function ImageUrl(host: string, id: nat): string
  {
    host + "/get_barcode_image/" + IntToDecimal(id)
  }

  function SavedEntries(firstId: nat, rs: seq<Record>, host: string): (es: seq<SavedEntry>)
    ensures |es| == |rs|
    ensures forall k :: 0 <= k < |rs| ==> es[k].id == firstId + k && es[k].data == rs[k].data
  {
    seq(|rs|, k requires 0 <= k < |rs| =>
      SavedEntry(firstId + k, rs[k].data, rs[k].barcodeType, ImageUrl(host, firstId + k)))
  }

  /** `failed_barcodes if failed_barcodes else None` */
  function Reported(failed: seq<Failure>): (r: Option<seq<Failure>>)
    ensures r.None? <==> failed == []
    ensures r.Some? ==> r.value == failed
  {
    if failed == [] then None else Some(failed)
  }

  /** The two request checks made before any item: count within
    * 1..maxCount, then padding within 0..20. */
  function BoundsError(count: int, padLength: int, maxCount: int): (r: Option<string>)
    ensures r.None? <==> 1 <= count <= maxCount && 0 <= padLength <= 20
    ensures !(1 <= count <= maxCount) ==> r == Some("Count must be between 1 and " + IntToDecimal(maxCount))
    ensures 1 <= count <= maxCount && !(0 <= padLength <= 20) ==> r == Some("Padding length must be between 0 and 20")
  {
    if count <= 0 || count > maxCount then Some("Count must be between 1 and " + IntToDecimal(maxCount))
    else if padLength < 0 || padLength > 20 then Some("Padding length must be between 0 and 20")
    else None
  }

  /** The limits as the messages spell them out. */
  lemma BoundsMessages(count: int)
    requires count <= 0
    ensures BoundsError(count, 0, 1000) == Some("Count must be between 1 and 1000")
    ensures BoundsError(count, 0, 5000) == Some("Count must be between 1 and 5000")
    ensures BoundsError(1, 21, 1000) == Some("Padding length must be between 0 and 20")
  {
    assert NatToDecimal(1) == "1";
    assert NatToDecimal(10) == "10";
    assert NatToDecimal(100) == "100";
    assert NatToDecimal(1000) == "1000";
    assert NatToDecimal(5) == "5";
    assert NatToDecimal(50) == "50";
    assert NatToDecimal(500) == "500";
    assert NatToDecimal(5000) == "5000";
    assert IntToDecimal(1000) == "1000" && IntToDecimal(5000) == "5000";
    assert "Count must be between 1 and " + "1000" == "Count must be between 1 and 1000";
    assert "Count must be between 1 and " + "5000" == "Count must be between 1 and 5000";
  }

  function SavedMessage(n: nat): string { "Generated and saved " + IntToDecimal(n) + " barcodes" }
  function TempMessage(n: nat): string { "Generated " + IntToDecimal(n) + " temporary barcodes" }

  function SequenceJob(p: SequenceParams, principal: Principal, render: Renderer, timestamp: string): Job
  {
    Job(p, UserIdOf(principal), timestamp, render)
  }

  /** generate_sequence (app.py:175-388, fixed_function.py:2-213). */
  method GenerateSequence(data: map<string, Value>, principal: Principal, render: Renderer,
                          store: Store, timestamp: string, host: string)
    returns (resp: SequenceResponse, store': Store)
    ensures var p := ParseSequenceParams(data, principal.Member?, 10);
      var job := SequenceJob(p, principal, render, timestamp);
      if BoundsError(p.count, p.padLength, 1000).Some? then
        resp == SequenceError(400, BoundsError(p.count, p.padLength, 1000).value) && store' == store
      else if p.save && Records(job, p.count) != [] then
        resp == SavedSequence(SavedMessage(|Records(job, p.count)|),
                              SavedEntries(store.nextId, Records(job, p.count), host),
                              Reported(Failures(job, p.count)))
        && store' == Commit(store, Records(job, p.count))
      else
        resp == TempSequence(TempMessage(|Images(job, p.count)|), Images(job, p.count), Reported(Failures(job, p.count)))
        && store' == store
    ensures resp.SavedSequence? ==> principal.Member?
  {
    var p := ParseSequenceParams(data, principal.Member?, 10);
    var bounds := BoundsError(p.count, p.padLength, 1000);
    if bounds.Some? {
      return SequenceError(400, bounds.value), store;
    }
    var job := SequenceJob(p, principal, render, timestamp);
    var records, images, failed := GenerateItems(job, 0, p.count, [], [], []);
    if p.save && records != [] {
      store' := Commit(store, records);
      resp := SavedSequence(SavedMessage(|records|), SavedEntries(store.nextId, records, host), Reported(failed));
    } else {
      store' := store;
      resp := TempSequence(TempMessage(|images|), images, Reported(failed));
    }
  }

  /** `min(int(batch_size), 50)`, or 10 when the value is not a number. */
  function BatchSizeOf(v: Value): (b: int)
    ensures b <= 50
    ensures PyIntOf(v).None? ==> b == 10
    ensures PyIntOf(v).Some? ==> b == if PyIntOf(v).value < 50 then PyIntOf(v).value else 50
  {
    match PyIntOf(v)
    case Some(b) => if b < 50 then b else 50
    case None => 10
  }

  const RangeStepZero: string := "range() arg 3 must not be zero"

  /** generate_bulk_sequence (app.py:832-1068): the same items as the single
    * sequence endpoint, made batch by batch with a commit after each batch.
    * A batch size of 0 makes `range` raise (a 500), and a negative one makes
    * the range empty, so no item is made at all. */
  method GenerateBulkSequence(data: map<string, Value>, principal: Principal, render: Renderer,
                              store: Store, timestamp: string, host: string)
    returns (resp: SequenceResponse, store': Store)
    ensures var p := ParseSequenceParams(data, principal.Member?, 100);
      var bs := BatchSizeOf(Get(data, "batch_size", VStr("10")));
      var job := SequenceJob(p, principal, render, timestamp);
      var n := if bs > 0 then p.count else 0;
      if BoundsError(p.count, p.padLength, 5000).Some? then
        resp == SequenceError(400, BoundsError(p.count, p.padLength, 5000).value) && store' == store
      else if bs == 0 then
        resp == SequenceError(500, RangeStepZero) && store' == store
      else if p.save then
        resp == SavedSequence(SavedMessage(|Records(job, n)|),
                              SavedEntries(store.nextId, Records(job, n), host),
                              Reported(Failures(job, n)))
        && store' == Commit(store, Records(job, n))
      else
        resp == TempSequence(TempMessage(|Images(job, n)|), Images(job, n), Reported(Failures(job, n)))
        && store' == store
  {
    var p := ParseSequenceParams(data, principal.Member?, 100);
    var batchSize := BatchSizeOf(Get(data, "batch_size", VStr("10")));
    var bounds := BoundsError(p.count, p.padLength, 5000);
    if bounds.Some? {
      return SequenceError(400, bounds.value), store;
    }
    if batchSize == 0 {
      return SequenceError(500, RangeStepZero), store;
    }
    var job := SequenceJob(p, principal, render, timestamp);
    var records: seq<Record> := [];
    var images: seq<TempImage> := [];
    var failed: seq<Failure> := [];
    var committed := store;
    if batchSize > 0 {
      records, images, failed, committed := RunBatches(job, p.count, batchSize, store);
    }
    if p.save {
      resp := SavedSequence(SavedMessage(|records|), SavedEntries(store.nextId, records, host), Reported(failed));
      store' := committed;
    } else {
      resp := TempSequence(TempMessage(|images|), images, Reported(failed));
      store' := store;
    }
  }

  /** `for batch_start in range(0, count, batch_size)`: each batch runs its
    * indices in order, then the session is committed if it holds records. */
  method RunBatches(job: Job, count: nat, batchSize: nat, store: Store)
    returns (records: seq<Record>, images: seq<TempImage>, failed: seq<Failure>, committed: Store)
    requires batchSize > 0
    ensures records == Records(job, count) && images == Images(job, count) && failed == Failures(job, count)
    ensures committed == if job.params.save then Commit(store, records) else store
  {
    records, images, failed := [], [], [];
    committed := store;
    var batchStart := 0;
    while batchStart < count
      invariant batchStart <= count
      invariant records == Records(job, batchStart) && images == Images(job, batchStart)
      invariant failed == Failures(job, batchStart)
      invariant committed == if job.params.save then Commit(store, records) else store
      decreases count - batchStart
    {
      var batchEnd := if batchStart + batchSize < count then batchStart + batchSize else count;
      records, images, failed, committed := RunBatch(job, batchStart, batchEnd, records, images, failed, store, committed);
      batchStart := batchEnd;
    }
  }

  /** One batch: indices from .. to-1, then a commit of what the batch added
    * when the session holds any record. */
  method RunBatch(job: Job, from: nat, to: nat, records: seq<Record>, images: seq<TempImage>, failed: seq<Failure>,
                  store: Store, committed: Store)
    returns (records': seq<Record>, images': seq<TempImage>, failed': seq<Failure>, committed': Store)
    requires from <= to
    requires records == Records(job, from) && images == Images(job, from) && failed == Failures(job, from)
    requires committed == if job.params.save then Commit(store, records) else store
    ensures records' == Records(job, to) && images' == Images(job, to) && failed' == Failures(job, to)
    ensures committed' == if job.params.save then Commit(store, records') else store
  {
    records', images', failed' := GenerateItems(job, from, to, records, images, failed);
    committed' := committed;
    if job.params.save && records' != [] {
      var added := records'[|records|..];
      assert records + added == records';
      CommitTwice(store, records, added);
      committed' := Commit(committed, added);
    }
  }

  /** When every index is rejected nothing is saved and every index is
    * reported failed. The bulk endpoint then still answers in the saved form
    * when saving was asked for, where generate_sequence answers in the
    * temporary form. */
  lemma {:induction false} AllRejectedSavesNothing(job: Job, n: nat)
    requires forall i :: 0 <= i < n ==> OutcomeOf(job, i).Rejected?
    ensures Records(job, n) == [] && Images(job, n) == []
    ensures |Failures(job, n)| == n
    decreases n
  {
    if n > 0 {
      AllRejectedSavesNothing(job, n - 1);
      StepLists(job, n - 1);
    }
  }

  // ---------------------------------------------------------------------
  // Single barcode and QR code.

  datatype SingleResponse =
    | SingleError(status: nat, error: string)
    | SingleSaved(message: string, id: nat, data: string, barcodeType: string,
                  isDynamic: Value, redirectUrl: Value, imageUrl: string)
    | SingleTemp(message: string, data: string, barcodeType: string,
                 isDynamic: Value, redirectUrl: Value, imageData: string)  // reported with id 0

  /** The 500 answer when no image comes back: the renderer's message, or a
    * fixed one when that is empty. */
  function RenderFailureText(message: string, fallback: string): string
  {
    if message != "" then message else fallback
  }

  /** generate_barcode once its fields are read: data, type, the dynamic flag
    * and redirect URL as sent, the `save` value and a generated filename. */
  function GenerateBarcode(barcodeData: string, barcodeType: string, isDynamic: Value, redirectUrl: Value,
                           save: Value, principal: Principal, render: Renderer, store: Store,
                           filename: string, host: string): (r: (SingleResponse, Store))
    ensures barcodeData == "" ==> r.0 == SingleError(400, "Barcode data is required")
    ensures barcodeData != "" && ValidateBarcodeData(barcodeData, barcodeType).Invalid? ==>
      r.0 == SingleError(400, ValidateBarcodeData(barcodeData, barcodeType).message)
    ensures r.0.SingleSaved? <==> ValidateBarcodeData(barcodeData, barcodeType).Valid? && EffectiveSave(save, principal.Member?)
    ensures r.0.SingleSaved? ==> (principal.Member? && r.0.id == store.nextId
      && r.1 == Commit(store, [Record(barcodeData, barcodeType, filename, isDynamic, redirectUrl, UserIdOf(principal))]))
    ensures !r.0.SingleSaved? ==> r.1 == store
    ensures r.0.SingleSaved? ==> r.0 == SingleSaved("Barcode generated and saved", store.nextId, barcodeData,
      barcodeType, isDynamic, redirectUrl, ImageUrl(host, store.nextId))
    ensures r.0.SingleTemp? ==> render(barcodeData, barcodeType).Png?
    ensures (barcodeData != "" && ValidateBarcodeData(barcodeData, barcodeType).Valid?
      && !EffectiveSave(save, principal.Member?)) ==>
      match render(barcodeData, barcodeType)
      case Png(b) => r.0 == SingleTemp("Temporary barcode generated", barcodeData, barcodeType,
                                       isDynamic, redirectUrl, "data:image/png;base64," + b)
      case RenderError(m) => r.0 == SingleError(500, RenderFailureText(m, "Failed to generate barcode image"))
  {
    if barcodeData == "" then (SingleError(400, "Barcode data is required"), store)
    else
      var v := ValidateBarcodeData(barcodeData, barcodeType);
      if v.Invalid? then (SingleError(400, v.message), store)
      else if EffectiveSave(save, principal.Member?) then
        var rec := Record(barcodeData, barcodeType, filename, isDynamic, redirectUrl, UserIdOf(principal));
        (SingleSaved("Barcode generated and saved", store.nextId, barcodeData, barcodeType,
                     isDynamic, redirectUrl, ImageUrl(host, store.nextId)),
         Commit(store, [rec]))
      else
        match render(barcodeData, barcodeType)
        case Png(b) =>
          (SingleTemp("Temporary barcode generated", barcodeData, barcodeType, isDynamic, redirectUrl,
                      "data:image/png;base64," + b), store)
        case RenderError(m) =>
          (SingleError(500, RenderFailureText(m, "Failed to generate barcode image")), store)
  }

  /** generate_qrcode: no length check, but a dynamic code needs a redirect
    * URL. */
  function GenerateQrcode(qrData: string, isDynamic: Value, redirectUrl: Value, save: Value,
                          principal: Principal, render: Renderer, store: Store,
                          filename: string, host: string): (r: (SingleResponse, Store))
    ensures qrData == "" ==> r.0 == SingleError(400, "QR code data is required")
    ensures qrData != "" && Truthy(isDynamic) && !Truthy(redirectUrl) ==>
      r.0 == SingleError(400, "Redirect URL is required for dynamic QR codes")
    ensures r.0.SingleSaved? <==>
      qrData != "" && !(Truthy(isDynamic) && !Truthy(redirectUrl)) && EffectiveSave(save, principal.Member?)
    ensures r.0.SingleSaved? ==> (principal.Member? && r.0.barcodeType == "qrcode"
      && r.1 == Commit(store, [Record(qrData, "qrcode", filename, isDynamic, redirectUrl, UserIdOf(principal))]))
    ensures !r.0.SingleSaved? ==> r.1 == store
    ensures r.0.SingleSaved? ==> r.0 == SingleSaved("QR code generated and saved", store.nextId, qrData,
      "qrcode", isDynamic, redirectUrl, ImageUrl(host, store.nextId))
    ensures (qrData != "" && !(Truthy(isDynamic) && !Truthy(redirectUrl))
      && !EffectiveSave(save, principal.Member?)) ==>
      match render(qrData, "qrcode")
      case Png(b) => r.0 == SingleTemp("Temporary QR code generated", qrData, "qrcode",
                                       isDynamic, redirectUrl, "data:image/png;base64," + b)
      case RenderError(m) => r.0 == SingleError(500, RenderFailureText(m, "Failed to generate QR code image"))
  {
    if qrData == "" then (SingleError(400, "QR code data is required"), store)
    else if Truthy(isDynamic) && !Truthy(redirectUrl) then
      (SingleError(400, "Redirect URL is required for dynamic QR codes"), store)
    else if EffectiveSave(save, principal.Member?) then
      var rec := Record(qrData, "qrcode", filename, isDynamic, redirectUrl, UserIdOf(principal));
      (SingleSaved("QR code generated and saved", store.nextId, qrData, "qrcode",
                   isDynamic, redirectUrl, ImageUrl(host, store.nextId)),
       Commit(store, [rec]))
    else
      match render(qrData, "qrcode")
      case Png(b) =>
        (SingleTemp("Temporary QR code generated", qrData, "qrcode", isDynamic, redirectUrl,
                    "data:image/png;base64," + b), store)
      case RenderError(m) =>
        (SingleError(500, RenderFailureText(m, "Failed to generate QR code image")), store)
  }

  // ---------------------------------------------------------------------
  // get_barcode_image.

  datatype ImageResponse =
    | ImageError(status: nat, error: string)
    | Image(png: string, contentDisposition: Option<string>)

  /** A record is owned when its user_id is truthy (set and not 0). */
  predicate Owned(r: Record)
  {
    r.userId.Some? && r.userId.value != 0
  }

  predicate MayView(p: Principal, r: Record)
  {
    !Owned(r) || (p.Member? && p.id == r.userId.value)
  }

  function GetBarcodeImage(store: Store, barcodeId: nat, principal: Principal, render: Renderer,
                           download: Option<string>): (r: ImageResponse)
    ensures barcodeId !in store.records <==> r == ImageError(404, "Barcode not found")
    ensures r == ImageError(403, "Unauthorized access") <==>
      barcodeId in store.records && !MayView(principal, store.records[barcodeId])
    ensures r.Image? ==> barcodeId in store.records && MayView(principal, store.records[barcodeId])
    ensures r.Image? ==> (r.contentDisposition.Some? <==> download.Some? && Lower(download.value) == "true")
    ensures barcodeId in store.records && MayView(principal, store.records[barcodeId]) ==>
      match render(store.records[barcodeId].data, store.records[barcodeId].barcodeType)
      case Png(b) => r.Image? && r.png == b
      case RenderError(m) => r == ImageError(500, RenderFailureText(m, "Failed to generate barcode image"))
    ensures r.Image? && r.contentDisposition.Some? ==>
      r.contentDisposition.value == "attachment; filename=" + store.records[barcodeId].filename
  {
    if barcodeId !in store.records then ImageError(404, "Barcode not found")
    else
      var rec := store.records[barcodeId];
      if Owned(rec) && (!principal.Member? || principal.id != rec.userId.value) then
        ImageError(403, "Unauthorized access")
      else
        match render(rec.data, rec.barcodeType)
        case RenderError(m) => ImageError(500, RenderFailureText(m, "Failed to generate barcode image"))
        case Png(b) =>
          var isDownload := Lower(if download.Some? then download.value else "false") == "true";
          Image(b, if isDownload then Some("attachment; filename=" + rec.filename) else None)
  }

  /** A barcode saved by a member is served to that member and refused to
    * everyone else, signed in or not. */
  lemma OwnerOnly(store: Store, id: nat, owner: nat, other: Principal, render: Renderer, download: Option<string>)
    requires id in store.records && store.records[id].userId == Some(owner) && owner != 0
    requires other != Member(owner, false) && other != Member(owner, true)
    ensures GetBarcodeImage(store, id, other, render, download) == ImageError(403, "Unauthorized access")
    ensures GetBarcodeImage(store, id, Member(owner, false), render, download) != ImageError(403, "Unauthorized access")
  {
  }
}
