/*
 * The main page script (static/js/barcodeApp.js): the FormValidator checks
 * and their aggregation, the client-side bounds of the sequence form, the
 * reading of a rate-limit string, the download links and the sequence CSV.
 *
 * JavaScript's Number() on text and the URL and e-mail regular expressions
 * are oracles, gathered in `Env`.
 */
module BarcodeApp {
  import opened Text
  import opened JsValues
  import AppServer

  // ---------------------------------------------------------------------
  // FormValidator.

  /** A form field as the validators receive it. */
  datatype Input = Absent | NullInput | Entered(s: string)

  /** `!value`: undefined, null and the empty string. */
  predicate Empty(v: Input)
  {
    !v.Entered? || v.s == ""
  }

  /** `!value || value.trim() === ''` */
  predicate Blank(v: Input)
  {
    Empty(v) || Trim(Js, v.s) == ""
  }

  /** Number(x): NaN, a finite value, or an infinity. */
  datatype JsNumber = NaN | Finite(r: real) | Infinity(negative: bool)

  datatype Env = Env(
    toNumber: string -> JsNumber,   // Number() on non-empty text
    urlPattern: string -> bool,
    emailPattern: string -> bool)

  /** One rule of a validateForm call; an option the rule leaves out is None
    * and takes its destructuring default. */
  datatype Rule = Rule(
    kind: string,
    required: Option<bool>,
    minLength: Option<int>,
    maxLength: Option<int>,
    pattern: Option<string -> bool>,
    min: Option<int>,
    max: Option<int>,
    integer: Option<bool>)

  datatype Outcome = Outcome(isValid: bool, message: string)

  const Pass: Outcome := Outcome(true, "")

  function OptionOr<T>(o: Option<T>, d: T): T
  {
    if o.Some? then o.value else d
  }

  predicate TooShort(v: Input, minLength: int) { !Empty(v) && |v.s| < minLength }
  predicate TooLong(v: Input, maxLength: int) { !Empty(v) && |v.s| > maxLength }
  predicate Mismatch(v: Input, pattern: Option<string -> bool>) { pattern.Some? && !Empty(v) && !pattern.value(v.s) }

  /** FormValidator.validateText: the checks run in the order required,
    * minimum length, maximum length, pattern, and the first that fails gives
    * the message. */
  function ValidateText(v: Input, rule: Rule): (r: Outcome)
    ensures r.isValid <==> (!(OptionOr(rule.required, true) && Blank(v)) && !TooShort(v, OptionOr(rule.minLength, 1))
      && !TooLong(v, OptionOr(rule.maxLength, 255)) && !Mismatch(v, rule.pattern))
    ensures r.isValid ==> r.message == ""
    ensures OptionOr(rule.required, true) && Blank(v) ==> r.message == "This field is required"
    ensures !(OptionOr(rule.required, true) && Blank(v)) && TooShort(v, OptionOr(rule.minLength, 1)) ==>
      r.message == "Minimum length is " + IntToDecimal(OptionOr(rule.minLength, 1)) + " characters"
    ensures (!(OptionOr(rule.required, true) && Blank(v)) && !TooShort(v, OptionOr(rule.minLength, 1))
      && TooLong(v, OptionOr(rule.maxLength, 255))) ==>
      r.message == "Maximum length is " + IntToDecimal(OptionOr(rule.maxLength, 255)) + " characters"
    ensures (!(OptionOr(rule.required, true) && Blank(v)) && !TooShort(v, OptionOr(rule.minLength, 1))
      && !TooLong(v, OptionOr(rule.maxLength, 255)) && Mismatch(v, rule.pattern)) ==>
      r.message == "Invalid format"
  {
    var required := OptionOr(rule.required, true);
    var minLength := OptionOr(rule.minLength, 1);
    var maxLength := OptionOr(rule.maxLength, 255);
    if required && Blank(v) then Outcome(false, "This field is required")
    else if TooShort(v, minLength) then Outcome(false, "Minimum length is " + IntToDecimal(minLength) + " characters")
    else if TooLong(v, maxLength) then Outcome(false, "Maximum length is " + IntToDecimal(maxLength) + " characters")
    else if Mismatch(v, rule.pattern) then Outcome(false, "Invalid format")
    else Pass
  }

  /** A non-blank value within the length bounds and matching the pattern
    * passes. */
  lemma TextWithinBoundsPasses(s: string, rule: Rule)
    requires Trim(Js, s) != ""
    requires OptionOr(rule.minLength, 1) <= |s| <= OptionOr(rule.maxLength, 255)
    requires rule.pattern.None? || rule.pattern.value(s)
    ensures ValidateText(Entered(s), rule) == Pass
  {
  }

  /** A value of white space only fails a field whose rule leaves
    * `required` out, whatever the bounds. */
  lemma BlankTextRequired(s: string, rule: Rule)
    requires AllSpace(Js, s)
    ensures ValidateText(Entered(s), rule.(required := None)) == Outcome(false, "This field is required")
  {
    var r := rule.(required := None);
    assert OptionOr(r.required, true);
    assert Blank(Entered(s));
  }

  /** Number(value) */
  function NumberOf(v: Input, env: Env): JsNumber
  {
    match v
    case Absent => NaN
    case NullInput => Finite(0.0)
    case Entered(s) => if s == "" then Finite(0.0) else env.toNumber(s)
  }

  predicate IsInteger(n: JsNumber)
  {
    n.Finite? && n.r == n.r.Floor as real
  }

  predicate Below(n: JsNumber, bound: int)
  {
    (n.Finite? && n.r < bound as real) || (n.Infinity? && n.negative)
  }

  predicate Above(n: JsNumber, bound: int)
  {
    (n.Finite? && n.r > bound as real) || (n.Infinity? && !n.negative)
  }

  /** `value === null || value === undefined || value === ''` */
  predicate Unset(v: Input)
  {
    v == Absent || v == NullInput || v == Entered("")
  }

  /** FormValidator.validateNumber: required, then a number at all, then
    * whole, then the inclusive bounds. Note that a missing optional value
    * converts to NaN and is refused as not a number. */
  function ValidateNumber(v: Input, rule: Rule, env: Env): (r: Outcome)
    ensures r.isValid <==>
      !(OptionOr(rule.required, true) && Unset(v))
      && !(v != Entered("") && NumberOf(v, env).NaN?)
      && !(OptionOr(rule.integer, false) && v != Entered("") && !IsInteger(NumberOf(v, env)))
      && !(rule.min.Some? && Below(NumberOf(v, env), rule.min.value))
      && !(rule.max.Some? && Above(NumberOf(v, env), rule.max.value))
    ensures r.isValid ==> r.message == ""
    ensures OptionOr(rule.required, true) && Unset(v) ==> r.message == "This field is required"
    ensures !(OptionOr(rule.required, true) && Unset(v)) && v != Entered("") && NumberOf(v, env).NaN? ==>
      r.message == "Must be a valid number"
    ensures (!(OptionOr(rule.required, true) && Unset(v)) && !(v != Entered("") && NumberOf(v, env).NaN?)
      && OptionOr(rule.integer, false) && v != Entered("") && !IsInteger(NumberOf(v, env))) ==>
      r.message == "Must be a whole number"
    ensures (!(OptionOr(rule.required, true) && Unset(v)) && !(v != Entered("") && NumberOf(v, env).NaN?)
      && !(OptionOr(rule.integer, false) && v != Entered("") && !IsInteger(NumberOf(v, env)))
      && rule.min.Some? && Below(NumberOf(v, env), rule.min.value)) ==>
      r.message == "Minimum value is " + IntToDecimal(rule.min.value)
    ensures (!(OptionOr(rule.required, true) && Unset(v)) && !(v != Entered("") && NumberOf(v, env).NaN?)
      && !(OptionOr(rule.integer, false) && v != Entered("") && !IsInteger(NumberOf(v, env)))
      && !(rule.min.Some? && Below(NumberOf(v, env), rule.min.value))
      && rule.max.Some? && Above(NumberOf(v, env), rule.max.value)) ==>
      r.message == "Maximum value is " + IntToDecimal(rule.max.value)
  {
    var num := NumberOf(v, env);
    if OptionOr(rule.required, true) && Unset(v) then Outcome(false, "This field is required")
    else if v != Entered("") && num.NaN? then Outcome(false, "Must be a valid number")
    else if OptionOr(rule.integer, false) && v != Entered("") && !IsInteger(num) then Outcome(false, "Must be a whole number")
    else if rule.min.Some? && Below(num, rule.min.value) then Outcome(false, "Minimum value is " + IntToDecimal(rule.min.value))
    else if rule.max.Some? && Above(num, rule.max.value) then Outcome(false, "Maximum value is " + IntToDecimal(rule.max.value))
    else Pass
  }

  /** The bounds are inclusive: a whole number equal to min or max passes. */
  lemma NumberBoundsInclusive(s: string, n: int, rule: Rule, env: Env)
    requires s != "" && env.toNumber(s) == Finite(n as real)
    requires rule.min.Some? && rule.max.Some? && (n == rule.min.value || n == rule.max.value)
    requires rule.min.value <= rule.max.value
    ensures ValidateNumber(Entered(s), rule, env) == Pass
    ensures ValidateNumber(Absent, rule.(required := Some(false)), env) == Outcome(false, "Must be a valid number")
  {
  }

  /** FormValidator.validateUrl, optional by default. */
  function ValidateUrl(v: Input, rule: Rule, env: Env): (r: Outcome)
    ensures r.isValid <==> (Blank(v) && !OptionOr(rule.required, false)) || (!Blank(v) && env.urlPattern(v.s))
    ensures r.isValid ==> r.message == ""
    ensures Blank(v) && OptionOr(rule.required, false) ==> r.message == "URL is required"
    ensures !Blank(v) && !env.urlPattern(v.s) ==> r.message == "Must be a valid URL"
  {
    var required := OptionOr(rule.required, false);
    if required && Blank(v) then Outcome(false, "URL is required")
    else if !required && Blank(v) then Pass
    else if !env.urlPattern(v.s) then Outcome(false, "Must be a valid URL")
    else Pass
  }

  /** FormValidator.validateEmail, required by default. */
  function ValidateEmail(v: Input, rule: Rule, env: Env): (r: Outcome)
    ensures r.isValid <==> (Blank(v) && !OptionOr(rule.required, true)) || (!Blank(v) && env.emailPattern(v.s))
    ensures r.isValid ==> r.message == ""
    ensures Blank(v) && OptionOr(rule.required, true) ==> r.message == "Email is required"
    ensures !Blank(v) && !env.emailPattern(v.s) ==> r.message == "Must be a valid email address"
  {
    var required := OptionOr(rule.required, true);
    if required && Blank(v) then Outcome(false, "Email is required")
    else if !required && Blank(v) then Pass
    else if !env.emailPattern(v.s) then Outcome(false, "Must be a valid email address")
    else Pass
  }

  /** The switch on rules.type; an unknown type always passes. */
  function Check(rule: Rule, v: Input, env: Env): (r: Outcome)
    ensures rule.kind !in {"text", "number", "url", "email"} ==> r == Pass
  {
    if rule.kind == "text" then ValidateText(v, rule)
    else if rule.kind == "number" then ValidateNumber(v, rule, env)
    else if rule.kind == "url" then ValidateUrl(v, rule, env)
    else if rule.kind == "email" then ValidateEmail(v, rule, env)
    else Pass
  }

  function FieldValue(formData: map<string, Input>, field: string): Input
  {
    if field in formData then formData[field] else Absent
  }

  /** A field's value checked against its rule. */
  function FieldCheck(formData: map<string, Input>, env: Env): (string, Rule) -> Outcome
  {
    (field: string, rule: Rule) => Check(rule, FieldValue(formData, field), env)
  }

  /** The errors object after the rules so far: each failing field with its
    * message. */
  function Errors(rules: seq<(string, Rule)>, check: (string, Rule) -> Outcome): map<string, string>
  {
    if rules == [] then map[]
    else
      var c := check(rules[|rules| - 1].0, rules[|rules| - 1].1);
      var errors := Errors(rules[..|rules| - 1], check);
      if c.isValid then errors else errors[rules[|rules| - 1].0 := c.message]
  }

  function FormErrors(formData: map<string, Input>, rules: seq<(string, Rule)>, env: Env): map<string, string>
  {
    Errors(rules, FieldCheck(formData, env))
  }

  predicate AllPass(rules: seq<(string, Rule)>, check: (string, Rule) -> Outcome)
  {
    forall i :: 0 <= i < |rules| ==> check(rules[i].0, rules[i].1).isValid
  }

  /** FormValidator.validateForm: one pass over the rules, recording each
    * failure; valid exactly when every rule passes. */
  method ValidateForm(formData: map<string, Input>, rules: seq<(string, Rule)>, env: Env)
    returns (isValid: bool, errors: map<string, string>)
    ensures errors == FormErrors(formData, rules, env)
    ensures isValid <==> AllPass(rules, FieldCheck(formData, env))
  {
    errors := map[];
    isValid := true;
    var i := 0;
    while i < |rules|
      invariant 0 <= i <= |rules|
      invariant errors == Errors(rules[..i], FieldCheck(formData, env))
      invariant isValid <==> AllPass(rules[..i], FieldCheck(formData, env))
    {
      var (field, rule) := rules[i];
      var result := Check(rule, FieldValue(formData, field), env);
      RuleStep(rules, i, FieldCheck(formData, env));
      assert result == FieldCheck(formData, env)(field, rule);
      if !result.isValid {
        errors := errors[field := result.message];
        isValid := false;
      }
      i := i + 1;
    }
    assert rules[..i] == rules;
  }

  /** One more rule adds its field's failure, if any. */
  lemma RuleStep(rules: seq<(string, Rule)>, i: nat, check: (string, Rule) -> Outcome)
    requires i < |rules|
    ensures var c := check(rules[i].0, rules[i].1);
      Errors(rules[..i + 1], check) == (if c.isValid then Errors(rules[..i], check) else Errors(rules[..i], check)[rules[i].0 := c.message])
      && (AllPass(rules[..i + 1], check) <==> AllPass(rules[..i], check) && c.isValid)
  {
    assert rules[..i + 1][..i] == rules[..i];
  }

  /** The errors name exactly the fields that fail a rule. */
  lemma {:induction false} FormErrorsNameFailures(rules: seq<(string, Rule)>, check: (string, Rule) -> Outcome)
    ensures forall f :: f in Errors(rules, check) <==>
      exists i :: 0 <= i < |rules| && rules[i].0 == f && !check(rules[i].0, rules[i].1).isValid
    decreases |rules|
  {
    if rules != [] {
      var init := rules[..|rules| - 1];
      var last := |rules| - 1;
      FormErrorsNameFailures(init, check);
      forall f | f in Errors(rules, check)
        ensures exists i :: 0 <= i < |rules| && rules[i].0 == f && !check(rules[i].0, rules[i].1).isValid
      {
        if f !in Errors(init, check) {
          assert rules[last].0 == f && !check(rules[last].0, rules[last].1).isValid;
        } else {
          var i :| 0 <= i < |init| && init[i].0 == f && !check(init[i].0, init[i].1).isValid;
          assert rules[i] == init[i];
        }
      }
      forall f | exists i :: 0 <= i < |rules| && rules[i].0 == f && !check(rules[i].0, rules[i].1).isValid
        ensures f in Errors(rules, check)
      {
        var i :| 0 <= i < |rules| && rules[i].0 == f && !check(rules[i].0, rules[i].1).isValid;
        if i < last {
          assert init[i] == rules[i];
        }
      }
    }
  }

  /** With distinct field names, each failing field carries its own rule's
    * message. */
  lemma {:induction false} FormErrorMessages(rules: seq<(string, Rule)>, check: (string, Rule) -> Outcome)
    requires forall i, j :: 0 <= i < j < |rules| ==> rules[i].0 != rules[j].0
    ensures forall i :: 0 <= i < |rules| && !check(rules[i].0, rules[i].1).isValid ==>
      rules[i].0 in Errors(rules, check)
      && Errors(rules, check)[rules[i].0] == check(rules[i].0, rules[i].1).message
    decreases |rules|
  {
    FormErrorsNameFailures(rules, check);
    if rules != [] {
      var init := rules[..|rules| - 1];
      var last := |rules| - 1;
      forall i, j | 0 <= i < j < |init| ensures init[i].0 != init[j].0 {
        assert init[i] == rules[i] && init[j] == rules[j];
      }
      FormErrorMessages(init, check);
      forall i | 0 <= i < |rules| && !check(rules[i].0, rules[i].1).isValid
        ensures rules[i].0 in Errors(rules, check)
          && Errors(rules, check)[rules[i].0] == check(rules[i].0, rules[i].1).message
      {
        if i < last {
          assert init[i] == rules[i];
          assert rules[i].0 != rules[last].0;
        }
      }
    }
  }

  /** The form is valid exactly when no error was recorded. */
  lemma ValidIffNoErrors(rules: seq<(string, Rule)>, check: (string, Rule) -> Outcome)
    ensures AllPass(rules, check) <==> Errors(rules, check) == map[]
  {
    FormErrorsNameFailures(rules, check);
    if !AllPass(rules, check) {
      var i :| 0 <= i < |rules| && !check(rules[i].0, rules[i].1).isValid;
      assert rules[i].0 in Errors(rules, check);
    } else if Errors(rules, check) != map[] {
      var f :| f in Errors(rules, check);
    }
  }

  // ---------------------------------------------------------------------
  // The sequence form (generateSequence).

  /** `input ? parseInt(input.value || text) : fallback`, None for NaN. */
  function FieldInt(input: Option<string>, defaultText: string, fallback: int): Option<int>
  {
    match input
    case None => Some(fallback)
    case Some(v) => ParseInt(if v == "" then defaultText else v)
  }

  /** The checks before the request is made. NaN fails neither comparison,
    * so an unreadable count or padding is let through. */
  function SequenceFormError(count: Option<int>, padLength: Option<int>): (r: Option<string>)
    ensures r.None? <==> (count.None? || 1 <= count.value <= 1000) && (padLength.None? || 0 <= padLength.value <= 20)
  {
    if count.Some? && (count.value <= 0 || count.value > 1000) then Some("Count must be between 1 and 1000")
    else if padLength.Some? && (padLength.value < 0 || padLength.value > 20) then Some("Padding length must be between 0 and 20")
    else None
  }

  /** For numbers, the client refuses exactly what the server refuses, with
    * the server's message. */
  lemma ClientBoundsMatchServer(count: int, padLength: int)
    ensures SequenceFormError(Some(count), Some(padLength)) == AppServer.BoundsError(count, padLength, 1000)
  {
    assert NatToDecimal(1000) == "1000" by {
      assert NatToDecimal(1) == "1";
      assert NatToDecimal(10) == "10";
      assert NatToDecimal(100) == "100";
    }
    assert "Count must be between 1 and " + "1000" == "Count must be between 1 and 1000";
  }

  /** The form's own defaults pass the checks. */
  lemma SequenceFormDefaults()
    ensures SequenceFormError(FieldInt(Some(""), "10", 10), FieldInt(Some(""), "0", 0)).None?
  {
    ParseIntRoundTrip(10);
    ParseIntRoundTrip(0);
    assert IntToDecimal(10) == "10" by { assert NatToDecimal(1) == "1"; }
    assert IntToDecimal(0) == "0";
  }

  /** A count that is not a number is NaN, which neither comparison refuses. */
  lemma UnreadableCountPasses()
    ensures FieldInt(Some("abc"), "10", 10).None?
    ensures SequenceFormError(FieldInt(Some("abc"), "10", 10), Some(0)).None?
  {
    assert "abc"[0] == 'a';
    assert !IsSpace(Js, 'a');
    assert TrimStart(Js, "abc") == "abc";
    assert DigitPrefix("abc", 10) == "";
  }

  // ---------------------------------------------------------------------
  // Rate-limit strings (updateRateLimitIndicators).

  /** `limitInfo.split(',')[0].trim().split(' ')`, then token 0 (else '100')
    * and token 2 (else 'day'). */
  function ParseLimit(limitInfo: string): (r: (string, string))
    ensures r.0 != "" && r.1 != ""
  {
    var parts := Split(Trim(Js, Split(limitInfo, ',')[0]), ' ');
    var requestCount := if parts[0] != "" then parts[0] else "100";
    var timeFrame := if |parts| > 2 && parts[2] != "" then parts[2] else "day";
    (requestCount, timeFrame)
  }

  lemma FirstCommaPiece(first: string, rest: string)
    requires ',' !in first
    ensures Split(first + "," + rest, ',')[0] == first
  {
    assert first + "," + rest == first + ("," + rest);
    SplitPrefix(first, "," + rest, ',');
    assert Split("," + rest, ',')[0] == "";
    assert first + "" == first;
  }

  lemma ThreeWords(a: string, b: string, c: string)
    requires ' ' !in a && ' ' !in b && ' ' !in c
    ensures Split(a + " " + b + " " + c, ' ') == [a, b, c]
  {
    var ps := [a, b, c];
    assert Join(ps[2..], ' ') == c;
    assert Join(ps[1..], ' ') == b + " " + c;
    assert Join(ps, ' ') == a + " " + (b + " " + c);
    assert a + " " + b + " " + c == a + " " + (b + " " + c);
    SplitJoin(ps, ' ');
  }

  /** A limit of the server's form `N per FRAME, ...` reads back as N and
    * FRAME. */
  lemma ParseLimitOfServerForm(n: string, frame: string, rest: string)
    requires n != "" && frame != ""
    requires ' ' !in n && ',' !in n && ' ' !in frame && ',' !in frame
    requires !IsSpace(Js, n[0]) && !IsSpace(Js, frame[|frame| - 1])
    ensures ParseLimit(n + " per " + frame + "," + rest) == (n, frame)
  {
    var first := n + " per " + frame;
    assert first == n + " " + "per" + " " + frame;
    FirstCommaPiece(first, rest);
    assert first[0] == n[0] && first[|first| - 1] == frame[|frame| - 1];
    TrimUnchanged(Js, first);
    ThreeWords(n, "per", frame);
  }

  /** The server's limits for a tier, `N per day, M per hour`, read back as
    * N requests a day. */
  lemma DailyLimitParses(n: string, hourly: string)
    requires n != [] && forall k :: 0 <= k < |n| ==> '0' <= n[k] <= '9'
    ensures ParseLimit(n + " per day, " + hourly + " per hour") == (n, "day")
  {
    assert n + " per day, " + hourly + " per hour" == n + " per " + "day" + "," + (" " + hourly + " per hour");
    assert !IsSpace(Js, n[0]);
    assert ' ' !in n && ',' !in n;
    ParseLimitOfServerForm(n, "day", " " + hourly + " per hour");
  }

  /** Every tier the server hands out is read as its daily request count:
    * 100 for a visitor, 500 for a member, 1000 for a premium member. */
  lemma AnonymousLimitParses()
    ensures ParseLimit(AppServer.GetUserRateLimits(AppServer.Anonymous)) == ("100", "day")
  {
    TierParses(AppServer.GetUserRateLimits(AppServer.Anonymous), "100", "20");
  }

  lemma MemberLimitParses(id: nat)
    ensures ParseLimit(AppServer.GetUserRateLimits(AppServer.Member(id, false))) == ("500", "day")
  {
    TierParses(AppServer.GetUserRateLimits(AppServer.Member(id, false)), "500", "50");
  }

  lemma PremiumLimitParses(id: nat)
    ensures ParseLimit(AppServer.GetUserRateLimits(AppServer.Member(id, true))) == ("1000", "day")
  {
    TierParses(AppServer.GetUserRateLimits(AppServer.Member(id, true)), "1000", "100");
  }

  lemma TierParses(limits: string, n: string, hourly: string)
    requires n != [] && forall k :: 0 <= k < |n| ==> '0' <= n[k] <= '9'
    requires limits == n + " per day, " + hourly + " per hour"
    ensures ParseLimit(limits) == (n, "day")
  {
    DailyLimitParses(n, hourly);
  }

  // ---------------------------------------------------------------------
  // Showing a result and downloading it.

  /** `url + (url.includes('?') ? '&' : '?') + 'download=true'` */
  function WithDownloadParam(url: string): (r: string)
    ensures url <= r && '?' in r
    ensures '?' !in url ==> r == url + "?download=true"
    ensures '?' in url ==> r == url + "&download=true"
  {
    url + (if '?' in url then "&" else "?") + "download=true"
  }

  /** A saved image URL from the server has no query, so the download link
    * gets exactly one `?download=true`, which the server reads as a
    * request for an attachment. */
  lemma DownloadLinkForSavedImage(host: string, id: nat, store: AppServer.Store, principal: AppServer.Principal,
                                  render: AppServer.Renderer)
    requires '?' !in host
    ensures WithDownloadParam(AppServer.ImageUrl(host, id)) == AppServer.ImageUrl(host, id) + "?download=true"
    ensures AppServer.GetBarcodeImage(store, id, principal, render, Some("true")).Image? ==>
      AppServer.GetBarcodeImage(store, id, principal, render, Some("true")).contentDisposition.Some?
  {
    var digits := IntToDecimal(id);
    assert '?' !in "/get_barcode_image/";
    assert Lower("true") == "true";
  }

  /** What the result panel shows: the image source, the download link and
    * its file name, and whether it is marked saved. */
  datatype ResultView = ResultView(imageSrc: string, downloadUrl: string, filename: string, saved: bool)

  /** `data.id > 0` for the ids the server sends. */
  predicate PositiveId(id: JsValue)
  {
    (id.JNum? && id.n > 0) || id == JBool(true)
  }

  /** displayBarcodeResult / displayQRResult for a successful reply; `kind`
    * is 'barcode' or 'qrcode'. */
  function ShowResult(kind: string, reply: ClientBarcode): (v: ResultView)
    ensures v.saved <==> PositiveId(reply.id)
    ensures v.saved ==> v.imageSrc == ToText(reply.imageUrl) && v.downloadUrl == WithDownloadParam(ToText(reply.imageUrl))
    ensures !v.saved ==> v.imageSrc == ToText(reply.imageData) && v.downloadUrl == v.imageSrc
  {
    if PositiveId(reply.id) then
      var url := ToText(reply.imageUrl);
      ResultView(url, WithDownloadParam(url), kind + "_" + ToText(reply.id) + ".png", true)
    else
      var src := ToText(reply.imageData);
      ResultView(src, src, kind + "_" + Or(reply.data, "temp") + ".png", false)
  }

  /** The reply of generate_barcode as the script receives it. */
  function ClientReply(r: AppServer.SingleResponse): ClientBarcode
    requires !r.SingleError?
  {
    match r
    case SingleSaved(_, id, data, barcodeType, _, _, imageUrl) =>
      ClientBarcode(JNum(id), JStr(data), JStr(barcodeType), JStr(imageUrl), Undefined)
    case SingleTemp(_, data, barcodeType, _, _, imageData) =>
      ClientBarcode(JNum(0), JStr(data), JStr(barcodeType), Undefined, JStr(imageData))
  }

  /** A barcode the server saved is shown as saved, with its image URL; a
    * temporary one is shown from its inline image data. */
  lemma SavedBarcodeShownAsSaved(barcodeData: string, barcodeType: string, isDynamic: AppServer.Value,
                                 redirectUrl: AppServer.Value, save: AppServer.Value, principal: AppServer.Principal,
                                 render: AppServer.Renderer, store: AppServer.Store, filename: string, host: string)
    requires AppServer.ValidStore(store)
    ensures var r := AppServer.GenerateBarcode(barcodeData, barcodeType, isDynamic, redirectUrl, save, principal,
                                               render, store, filename, host).0;
      (r.SingleSaved? ==> ShowResult("barcode", ClientReply(r)).saved
                          && ShowResult("barcode", ClientReply(r)).imageSrc == AppServer.ImageUrl(host, store.nextId))
      && (r.SingleTemp? ==> !ShowResult("barcode", ClientReply(r)).saved
                            && ShowResult("barcode", ClientReply(r)).imageSrc == r.imageData)
  {
  }

  /** The download link of a sequence item (displaySequenceResults): inline
    * data first, then the image URL with the download flag, then the
    * barcode page. */
  function SequenceDownloadHref(b: ClientBarcode): (href: string)
    ensures Truthy(b.imageData) ==> href == ToText(b.imageData)
    ensures !Truthy(b.imageData) && Truthy(b.imageUrl) ==> href == WithDownloadParam(ToText(b.imageUrl))
    ensures !Truthy(b.imageData) && !Truthy(b.imageUrl) ==> href == "/barcode/" + ToText(b.id) + "?download=true"
  {
    if Truthy(b.imageData) then ToText(b.imageData)
    else if Truthy(b.imageUrl) then WithDownloadParam(ToText(b.imageUrl))
    else "/barcode/" + ToText(b.id) + "?download=true"
  }

  // ---------------------------------------------------------------------
  // exportSequenceToCsv.

  const CsvUriPrefix: string := "data:text/csv;charset=utf-8,"
  const SequenceCsvHeader: string := "ID,Data,Type,Image URL"

  /** One line: id, then data, type and image URL in double quotes, with no
    * escaping of quotes inside them. */
  function SequenceCsvLine(b: ClientBarcode): string
  {
    Or(b.id, "temp") + ",\"" + Or(b.data, "") + "\",\"" + Or(b.barcodeType, "code128") + "\",\""
      + Or(b.imageUrl, "data:image/png;base64,...") + "\""
  }

  function SequenceCsvLines(bs: seq<ClientBarcode>): (ls: seq<string>)
    ensures |ls| == |bs|
  {
    seq(|bs|, i requires 0 <= i < |bs| => SequenceCsvLine(bs[i]))
  }

  /** The text before encodeURI, or None where the script reports 'No
    * barcodes to export' and writes nothing. */
  method ExportSequenceToCsv(barcodes: seq<ClientBarcode>) returns (csv: Option<string>)
    ensures barcodes == [] <==> csv.None?
    ensures csv.Some? ==> csv.value == CsvUriPrefix + Terminated([SequenceCsvHeader] + SequenceCsvLines(barcodes))
  {
    if |barcodes| == 0 {
      return None;
    }
    var text := SequenceCsvHeader + "\n";
    assert Terminated([SequenceCsvHeader]) == SequenceCsvHeader + "\n" by {
      assert [SequenceCsvHeader][..0] == [];
    }
    assert [SequenceCsvHeader] + SequenceCsvLines(barcodes[..0]) == [SequenceCsvHeader];
    var i := 0;
    while i < |barcodes|
      invariant 0 <= i <= |barcodes|
      invariant text == Terminated([SequenceCsvHeader] + SequenceCsvLines(barcodes[..i]))
    {
      SequenceCsvStep(barcodes, i);
      text := text + SequenceCsvLine(barcodes[i]) + "\n";
      i := i + 1;
    }
    assert barcodes[..i] == barcodes;
    var content := CsvUriPrefix + text;
    return Some(content);
  }

  lemma SequenceCsvStep(barcodes: seq<ClientBarcode>, i: nat)
    requires i < |barcodes|
    ensures Terminated([SequenceCsvHeader] + SequenceCsvLines(barcodes[..i + 1]))
      == Terminated([SequenceCsvHeader] + SequenceCsvLines(barcodes[..i])) + SequenceCsvLine(barcodes[i]) + "\n"
  {
    var lines := SequenceCsvLines(barcodes[..i]);
    var line := SequenceCsvLine(barcodes[i]);
    SequenceCsvLinesStep(barcodes, i);
    assert [SequenceCsvHeader] + (lines + [line]) == ([SequenceCsvHeader] + lines) + [line];
    TerminatedStep([SequenceCsvHeader] + lines, line);
  }

  lemma SequenceCsvLinesStep(barcodes: seq<ClientBarcode>, i: nat)
    requires i < |barcodes|
    ensures SequenceCsvLines(barcodes[..i + 1]) == SequenceCsvLines(barcodes[..i]) + [SequenceCsvLine(barcodes[i])]
  {
  }

  /** When no field holds a newline, the exported text splits back into the
    * header, one line per barcode in order, and the empty piece after the
    * last newline. */
  lemma SequenceCsvSplits(barcodes: seq<ClientBarcode>)
    requires forall i :: 0 <= i < |barcodes| ==> '\n' !in SequenceCsvLine(barcodes[i])
    ensures Split(Terminated([SequenceCsvHeader] + SequenceCsvLines(barcodes)), '\n')
      == [SequenceCsvHeader] + SequenceCsvLines(barcodes) + [""]
  {
    var body := SequenceCsvLines(barcodes);
    assert forall k :: 0 <= k < |body| ==> '\n' !in body[k] by {
      forall k | 0 <= k < |body| ensures '\n' !in body[k] {
        assert body[k] == SequenceCsvLine(barcodes[k]);
      }
    }
    HeadedLinesSplit(SequenceCsvHeader, body);
  }

  /** Lines without newlines, after a header without one, split back. */
  lemma HeadedLinesSplit(header: string, body: seq<string>)
    requires '\n' !in header
    requires forall k :: 0 <= k < |body| ==> '\n' !in body[k]
    ensures Split(Terminated([header] + body), '\n') == [header] + body + [""]
  {
    var ls := [header] + body;
    assert forall i :: 0 <= i < |ls| ==> '\n' !in ls[i] by {
      forall i | 0 <= i < |ls| ensures '\n' !in ls[i] {
        if i > 0 {
          assert ls[i] == body[i - 1];
        }
      }
    }
    TerminatedLines(ls);
  }
}
