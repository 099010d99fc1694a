/*
 * The login and registration page's authentication helper: the colours of
 * the status line, the phone number clean-up and the Firebase error texts
 * of phone sign-in, the guards before a code is confirmed, and the tab
 * strip whose tabs and panes carry the 'active' class. Firebase, the DOM,
 * reCAPTCHA and the timers are outside the model: what they report is a
 * parameter.
 */
module AuthHelper {
  import opened Text

  // ---------------------------------------------------------------------
  // The status line (showStatusMessage).

  /** The background and text colour classes of a status message. */
  datatype Style = Style(background: string, foreground: string)

  const SuccessStyle: Style := Style("bg-green-100", "text-green-800")
  const ErrorStyle: Style := Style("bg-red-100", "text-red-800")
  const InfoStyle: Style := Style("bg-blue-100", "text-blue-800")

  /** The classes the status line is reset to before the colours are added. */
  const BaseClasses: seq<string> := ["mt-4", "p-2", "text-sm", "text-center", "rounded"]

  /** The colours for a message type: 'info' and every type the switch does
    * not name (the page also passes 'warning') share the blue style. */
  function StatusStyle(kind: string): Style
  {
    if kind == "success" then SuccessStyle
    else if kind == "error" then ErrorStyle
    else InfoStyle
  }

  /** Each style is chosen by its own type and by no other. */
  lemma StatusStyleIff(kind: string)
    ensures StatusStyle(kind) == SuccessStyle <==> kind == "success"
    ensures StatusStyle(kind) == ErrorStyle <==> kind == "error"
    ensures StatusStyle(kind) == InfoStyle <==> kind != "success" && kind != "error"
  {
  }

  /** The status line element: its class list and its text. The class
    * 'hidden' in the list hides it. */
  class StatusBox {
    var classes: seq<string>
    var text: string

    constructor (classes0: seq<string>, text0: string)
      ensures classes == classes0 && text == text0
    {
      classes := classes0;
      text := text0;
    }

    /** Shows a message: the class list is reset, the colours of the type
      * are added, the text is set and the line is no longer hidden. */
    method Show(message: string, kind: string)
      modifies this
      ensures classes == BaseClasses + [StatusStyle(kind).background, StatusStyle(kind).foreground]
      ensures text == message
      ensures "hidden" !in classes
    {
      var style := StatusStyle(kind);
      classes := BaseClasses + [style.background, style.foreground];
      text := message;
    }

    /** The five-second timer's callback: the line is hidden again and the
      * text stays. */
    method Expire()
      modifies this
      ensures classes == if "hidden" in old(classes) then old(classes) else old(classes) + ["hidden"]
      ensures "hidden" in classes && text == old(text)
    {
      if "hidden" !in classes {
        classes := classes + ["hidden"];
      }
    }
  }

  // ---------------------------------------------------------------------
  // Phone sign-in (handlePhoneAuth).

  const EmptyPhoneAlert: string := "Please enter a valid phone number"
  const PhoneFormatAlert: string := "Phone number must be in international format (e.g., +1 123 456 7890)"

  /** What the phone field's value becomes: an alert, or the number sent. */
  datatype PhoneInput = Refused(alert: string) | Accepted(number: string)

  /** `/^\d/`: an ASCII digit (no Unicode flag on the pattern). */
  predicate IsAsciiDigit(c: char)
  {
    '0' <= c <= '9'
  }

  /** The number typed, cleaned: the value is trimmed, then checked. */
  function NormalisePhone(value: string): PhoneInput
  {
    PhoneOfTrimmed(Trim(Js, value))
  }

  /** An empty trimmed value is refused, a leading '+' is kept, a leading
    * digit gets one, and any other start is refused. */
  function PhoneOfTrimmed(p: string): PhoneInput
  {
    if p == "" then Refused(EmptyPhoneAlert)
    else if StartsWith(p, "+") then Accepted(p)
    else if IsAsciiDigit(p[0]) then Accepted("+" + p)
    else Refused(PhoneFormatAlert)
  }

  /** A number is sent exactly when the trimmed value starts with '+' or a
    * digit; an empty value and any other start get their own alert. */
  lemma PhoneAcceptedIff(value: string)
    ensures var p := Trim(Js, value);
      NormalisePhone(value).Accepted? <==> p != "" && (p[0] == '+' || IsAsciiDigit(p[0]))
  {
  }

  lemma EmptyPhoneIff(value: string)
    ensures NormalisePhone(value) == Refused(EmptyPhoneAlert) <==> AllSpace(Js, value)
  {
    EmptyTrimmedIff(Trim(Js, value));
  }

  lemma EmptyTrimmedIff(p: string)
    ensures PhoneOfTrimmed(p) == Refused(EmptyPhoneAlert) <==> p == ""
  {
    assert |EmptyPhoneAlert| != |PhoneFormatAlert|;
  }

  /** The number sent is in international form: it starts with '+', and
    * after the '+' come the characters typed, without their own '+'. */
  lemma AcceptedNumberShape(value: string)
    requires NormalisePhone(value).Accepted?
    ensures var n := NormalisePhone(value).number; var p := Trim(Js, value);
      n != "" && n[0] == '+' && n[1..] == (if p[0] == '+' then p[1..] else p)
  {
    TrimmedNumberShape(Trim(Js, value));
  }

  lemma TrimmedNumberShape(p: string)
    requires PhoneOfTrimmed(p).Accepted?
    ensures var n := PhoneOfTrimmed(p).number;
      n != "" && n[0] == '+' && n[1..] == (if p[0] == '+' then p[1..] else p)
  {
    if p[0] != '+' {
      PlusTail(PhoneOfTrimmed(p).number, p);
    }
  }

  lemma PlusTail(n: string, p: string)
    requires n == "+" + p
    ensures n != "" && n[0] == '+' && n[1..] == p
  {
  }

  /** Cleaning a number that was already sent changes nothing. */
  lemma NormalisePhoneIdempotent(value: string)
    requires NormalisePhone(value).Accepted?
    ensures NormalisePhone(NormalisePhone(value).number) == NormalisePhone(value)
  {
    TrimmedIdempotent(Trim(Js, value));
  }

  lemma TrimmedIdempotent(p: string)
    requires PhoneOfTrimmed(p).Accepted? && !IsSpace(Js, p[0]) && !IsSpace(Js, p[|p| - 1])
    ensures NormalisePhone(PhoneOfTrimmed(p).number) == PhoneOfTrimmed(p)
  {
    if StartsWith(p, "+") {
      TrimUnchanged(Js, p);
      InternationalStable(p);
    } else {
      PlusTrimmed(PhoneOfTrimmed(p).number, p);
      InternationalStable(PhoneOfTrimmed(p).number);
    }
  }

  /** A '+' in front of a text that does not end in white space leaves
    * nothing to trim. */
  lemma PlusTrimmed(n: string, p: string)
    requires n == "+" + p && p != [] && !IsSpace(Js, p[|p| - 1])
    ensures n != [] && n[0] == '+' && Trim(Js, n) == n
  {
    assert n[|n| - 1] == p[|p| - 1];
    TrimUnchanged(Js, n);
  }

  /** A trimmed number with a leading '+' is sent as it is. */
  lemma InternationalStable(n: string)
    requires n != "" && n[0] == '+' && Trim(Js, n) == n
    ensures NormalisePhone(n) == Accepted(n)
  {
  }

  /** What the reCAPTCHA setup can see of the first Firebase app's key:
    * None when there is no app, no options or no key. */
  predicate ApiKeyUsable(apiKey: Option<string>)
  {
    apiKey.Some? && apiKey.value != "" && !Contains(apiKey.value, "error")
  }

  /** The outcome of pressing the phone button. */
  datatype PhoneAuthStep =
    | FirebaseMissing
    | NoPhoneField
    | PhoneRefused(alert: string)
    | KeyProblem
    | SendCode(number: string)

  /** handlePhoneAuth up to the SMS request: Firebase must be loaded, the
    * field present, the number acceptable and the API key usable. */
  function HandlePhoneAuth(firebaseLoaded: bool, field: Option<string>, apiKey: Option<string>): PhoneAuthStep
  {
    if !firebaseLoaded then FirebaseMissing
    else if field.None? then NoPhoneField
    else match NormalisePhone(field.value)
      case Refused(alert) => PhoneRefused(alert)
      case Accepted(number) => if ApiKeyUsable(apiKey) then SendCode(number) else KeyProblem
  }

  /** The page falls back to the password tab when Firebase is missing or
    * its key is unusable, and never when the user only mistyped. */
  predicate FallsBackToPassword(step: PhoneAuthStep)
  {
    step.FirebaseMissing? || step.KeyProblem?
  }

  /** An SMS is requested exactly when every guard passes, and then for the
    * cleaned number. */
  lemma SendCodeIff(firebaseLoaded: bool, field: Option<string>, apiKey: Option<string>)
    ensures var step := HandlePhoneAuth(firebaseLoaded, field, apiKey);
      step.SendCode? <==> firebaseLoaded && field.Some? && NormalisePhone(field.value).Accepted? && ApiKeyUsable(apiKey)
    ensures var step := HandlePhoneAuth(firebaseLoaded, field, apiKey);
      step.SendCode? ==> step.number == NormalisePhone(field.value).number && step.number[0] == '+'
  {
    if firebaseLoaded && field.Some? && NormalisePhone(field.value).Accepted? {
      AcceptedNumberShape(field.value);
    }
  }

  /** A refused number keeps the user on the phone tab with an alert. */
  lemma RefusedStaysOnPhoneTab(firebaseLoaded: bool, field: Option<string>, apiKey: Option<string>)
    requires firebaseLoaded && field.Some? && NormalisePhone(field.value).Refused?
    ensures !FallsBackToPassword(HandlePhoneAuth(firebaseLoaded, field, apiKey))
    ensures HandlePhoneAuth(firebaseLoaded, field, apiKey).alert in {EmptyPhoneAlert, PhoneFormatAlert}
  {
  }

  /** The Firebase error reported when the SMS could not be sent. */
  datatype AuthError = AuthError(code: string, message: string)

  const SmsErrorPrefix: string := "Error sending SMS: "

  /** The codes the handler names, in the order it tests them, and the
    * fixed texts it shows for them. */
  const KnownErrorCodes: seq<string> := ["auth/invalid-phone-number", "auth/internal-error",
    "auth/too-many-requests", "auth/captcha-check-failed", "auth/quota-exceeded", "auth/api-key-not-valid"]
  const KnownErrorTexts: seq<string> := [
    "Invalid phone number format. " + "Use international format (e.g., +1 123 456 7890)",
    "Firebase internal error. " + "Please try with a different phone number or use password authentication.",
    "Too many authentication attempts. " + "Please try again later or use password authentication.",
    "reCAPTCHA verification failed. " + "Please try again.",
    "Service quota exceeded. " + "Please try again later or use password authentication.",
    "Firebase API key issue. " + "Please use password authentication instead."]

  /** The text shown for a failed SMS request. */
  function PhoneErrorMessage(e: AuthError): string
  {
    if e.code == KnownErrorCodes[0] then KnownErrorTexts[0]
    else if e.code == KnownErrorCodes[1] then KnownErrorTexts[1]
    else if e.code == KnownErrorCodes[2] then KnownErrorTexts[2]
    else if e.code == KnownErrorCodes[3] then KnownErrorTexts[3]
    else if e.code == KnownErrorCodes[4] then KnownErrorTexts[4]
    else if e.code == KnownErrorCodes[5] || Contains(e.message, "api-key-not-valid") then KnownErrorTexts[5]
    else SmsErrorPrefix + e.message
  }

  /** A named code decides the text whatever Firebase's message says. */
  lemma KnownCodeDecides(i: nat, message: string)
    requires i < |KnownErrorCodes|
    ensures PhoneErrorMessage(AuthError(KnownErrorCodes[i], message)) == KnownErrorTexts[i]
  {
  }

  /** Different named codes give different texts. */
  lemma KnownTextsDistinct(i: nat, j: nat)
    requires i < j < |KnownErrorTexts|
    ensures KnownErrorTexts[i] != KnownErrorTexts[j]
  {
    assert |KnownErrorTexts[i]| != |KnownErrorTexts[j]|;
  }

  /** The generic text is used exactly when the code is not named and the
    * message does not mention an invalid API key, and it carries the whole
    * message after its prefix. */
  lemma SmsFallbackIff(e: AuthError)
    ensures StartsWith(PhoneErrorMessage(e), SmsErrorPrefix)
      <==> e.code !in KnownErrorCodes && !Contains(e.message, "api-key-not-valid")
    ensures StartsWith(PhoneErrorMessage(e), SmsErrorPrefix) ==>
      PhoneErrorMessage(e)[|SmsErrorPrefix|..] == e.message
  {
    var r := PhoneErrorMessage(e);
    if e.code == KnownErrorCodes[0] { KnownTextNotGeneric(0); }
    else if e.code == KnownErrorCodes[1] { KnownTextNotGeneric(1); }
    else if e.code == KnownErrorCodes[2] { KnownTextNotGeneric(2); }
    else if e.code == KnownErrorCodes[3] { KnownTextNotGeneric(3); }
    else if e.code == KnownErrorCodes[4] { KnownTextNotGeneric(4); }
    else if e.code == KnownErrorCodes[5] || Contains(e.message, "api-key-not-valid") { KnownTextNotGeneric(5); }
    else {
      assert r == SmsErrorPrefix + e.message;
    }
  }

  /** No fixed text starts like the generic one. */
  lemma KnownTextNotGeneric(k: nat)
    requires k < |KnownErrorTexts|
    ensures !StartsWith(KnownErrorTexts[k], SmsErrorPrefix)
  {
    var t := KnownErrorTexts[k];
    if k == 0 { assert t[0] == 'I'; }
    else if k == 1 { assert t[0] == 'F'; }
    else if k == 2 { assert t[0] == 'T'; }
    else if k == 3 { assert t[0] == 'r'; }
    else if k == 4 { assert t[0] == 'S'; }
    else { assert t[0] == 'F'; }
  }

  // ---------------------------------------------------------------------
  // Confirming the code (verifyPhoneCode).

  const NoCodeSentAlert: string := "No verification code was sent. Please try again."
  const NoCodeSentStatus: string := "No verification code was sent"
  const MissingCodeAlert: string := "Please enter the verification code"

  /** What pressing the verify button does. */
  datatype VerifyAction = NoCodeSent | NoCodeField | MissingCode | Confirm(code: string)

  /** verifyPhoneCode's guards: a confirmation result must exist, the code
    * field must exist and its trimmed value must not be empty. */
  function VerifyPhoneCode(hasConfirmation: bool, field: Option<string>): VerifyAction
  {
    if !hasConfirmation then NoCodeSent
    else if field.None? then NoCodeField
    else
      var code := Trim(Js, field.value);
      if code == "" then MissingCode else Confirm(code)
  }

  /** A notice the page raises: a browser alert or a status line. */
  datatype Notice = Alert(text: string) | Status(text: string, kind: string)

  function VerifyNotices(a: VerifyAction): seq<Notice>
  {
    match a
    case NoCodeSent => [Alert(NoCodeSentAlert), Status(NoCodeSentStatus, "error")]
    case NoCodeField => []
    case MissingCode => [Alert(MissingCodeAlert)]
    case Confirm(_) => [Status("Verifying code...", "info")]
  }

  /** Confirmation is attempted exactly when there is a pending result and a
    * code that is not blank, and then with the code trimmed. */
  lemma ConfirmIff(hasConfirmation: bool, field: Option<string>)
    ensures VerifyPhoneCode(hasConfirmation, field).Confirm?
      <==> hasConfirmation && field.Some? && !AllSpace(Js, field.value)
    ensures var a := VerifyPhoneCode(hasConfirmation, field);
      a.Confirm? ==> a.code == Trim(Js, field.value) && a.code != "" && Trim(Js, a.code) == a.code
  {
    if hasConfirmation && field.Some? {
      TrimIdempotent(Js, field.value);
    }
  }

  /** A refused attempt always tells the user why, except when the page has
    * no code field at all; only a confirmation shows the blue status. */
  lemma RefusalsAreReported(hasConfirmation: bool, field: Option<string>)
    ensures var a := VerifyPhoneCode(hasConfirmation, field);
      (a.NoCodeSent? || a.MissingCode?) ==> exists k :: 0 <= k < |VerifyNotices(a)| && VerifyNotices(a)[k].Alert?
    ensures var a := VerifyPhoneCode(hasConfirmation, field);
      (exists k :: 0 <= k < |VerifyNotices(a)| && VerifyNotices(a)[k] == Status("Verifying code...", "info")) <==> a.Confirm?
  {
    var a := VerifyPhoneCode(hasConfirmation, field);
    if a.NoCodeSent? || a.MissingCode? {
      assert VerifyNotices(a)[0].Alert?;
    }
    if a.Confirm? {
      assert VerifyNotices(a)[0] == Status("Verifying code...", "info");
    }
  }

  // ---------------------------------------------------------------------
  // The tab strip (initializeAuthTabs, setActiveAuthTab).

  /** A tab and its pane: None when the page lacks the element, otherwise
    * whether it carries 'active'. */
  datatype TabPair = TabPair(tab: Option<bool>, pane: Option<bool>)

  datatype TabEntry = TabEntry(kind: string, elements: TabPair)

  const TabKinds: seq<string> := ["email", "phone", "password"]

  function Cleared(o: Option<bool>): Option<bool>
  {
    if o.Some? then Some(false) else None
  }

  function Marked(o: Option<bool>): Option<bool>
  {
    if o.Some? then Some(true) else None
  }

  /** The strip after activating kind t: the present elements of t carry
    * 'active', every other present element does not. */
  function Activated(es: seq<TabEntry>, t: string): seq<TabEntry>
  {
    seq(|es|, i requires 0 <= i < |es| =>
      if es[i].kind == t then TabEntry(t, TabPair(Marked(es[i].elements.tab), Marked(es[i].elements.pane)))
      else TabEntry(es[i].kind, TabPair(Cleared(es[i].elements.tab), Cleared(es[i].elements.pane))))
  }

  /** After activating t, an element is active exactly when it belongs to t;
    * no element appears or disappears and no kind changes. */
  lemma ActivatedExactly(es: seq<TabEntry>, t: string, i: nat)
    requires i < |es|
    ensures |Activated(es, t)| == |es|
    ensures var e := Activated(es, t)[i];
      e.kind == es[i].kind
      && e.elements.tab.Some? == es[i].elements.tab.Some?
      && e.elements.pane.Some? == es[i].elements.pane.Some?
      && (e.elements.tab == Some(true) <==> es[i].elements.tab.Some? && es[i].kind == t)
      && (e.elements.pane == Some(true) <==> es[i].elements.pane.Some? && es[i].kind == t)
  {
  }

  /** Activating the same tab twice is activating it once. */
  lemma ActivatedIdempotent(es: seq<TabEntry>, t: string)
    ensures Activated(Activated(es, t), t) == Activated(es, t)
  {
    var a := Activated(es, t);
    assert forall i :: 0 <= i < |es| ==> Activated(a, t)[i] == a[i];
  }

  /** Only the last activation matters. */
  lemma ActivatedLastWins(es: seq<TabEntry>, t: string, u: string)
    ensures Activated(Activated(es, t), u) == Activated(es, u)
  {
    var a := Activated(es, t);
    assert forall i :: 0 <= i < |es| ==> Activated(a, u)[i] == Activated(es, u)[i];
  }

  predicate DistinctKinds(es: seq<TabEntry>)
  {
    forall i, j :: 0 <= i < j < |es| ==> es[i].kind != es[j].kind
  }

  /** With one entry per kind, at most one tab is active afterwards. */
  lemma AtMostOneActiveTab(es: seq<TabEntry>, t: string, i: nat, j: nat)
    requires DistinctKinds(es) && i < j < |es|
    ensures !(Activated(es, t)[i].elements.tab == Some(true) && Activated(es, t)[j].elements.tab == Some(true))
  {
    ActivatedExactly(es, t, i);
    ActivatedExactly(es, t, j);
  }

  /** The tab strip of one page (getTabElements). */
  class AuthTabs {
    var entries: seq<TabEntry>

    /** One entry per kind, as the object literal's keys are distinct. */
    predicate Valid()
      reads this
    {
      DistinctKinds(entries)
    }

    constructor (email: TabPair, phone: TabPair, password: TabPair)
      ensures entries == [TabEntry("email", email), TabEntry("phone", phone), TabEntry("password", password)]
      ensures Valid()
    {
      entries := [TabEntry("email", email), TabEntry("phone", phone), TabEntry("password", password)];
    }

    /** Clears 'active' from every tab and pane present, then sets it on the
      * tab and pane of tabType that are present. The page only asks for a
      * kind it has; any other would fail on the missing entry. */
    method SetActiveAuthTab(tabType: string)
      requires Valid()
      requires exists i :: 0 <= i < |entries| && entries[i].kind == tabType
      modifies this
      ensures entries == Activated(old(entries), tabType)
      ensures Valid()
    {
      var i := 0;
      while i < |entries|
        invariant 0 <= i <= |entries| == |old(entries)|
        invariant forall j :: 0 <= j < i ==>
          entries[j] == TabEntry(old(entries)[j].kind, TabPair(Cleared(old(entries)[j].elements.tab), Cleared(old(entries)[j].elements.pane)))
        invariant forall j :: i <= j < |entries| ==> entries[j] == old(entries)[j]
      {
        var e := entries[i];
        entries := entries[i := TabEntry(e.kind, TabPair(Cleared(e.elements.tab), Cleared(e.elements.pane)))];
        i := i + 1;
      }
      var k := 0;
      while entries[k].kind != tabType
        invariant 0 <= k < |entries|
        invariant exists j :: k <= j < |entries| && entries[j].kind == tabType
        decreases |entries| - k
      {
        k := k + 1;
      }
      var e := entries[k];
      entries := entries[k := TabEntry(e.kind, TabPair(Marked(e.elements.tab), Marked(e.elements.pane)))];
    }
  }

  /** The tab shown first: none when an element is missing or the page is
    * an email sign-in link, email when Firebase is ready, else password. */
  function InitialTab(allPresent: bool, firebaseReady: bool, emailLink: bool): Option<string>
  {
    if !allPresent then None
    else if firebaseReady && emailLink then None
    else if firebaseReady then Some("email")
    else Some("password")
  }

  /** The first tab is a tab the strip has, never the phone tab, and it is
    * the password tab exactly when Firebase is not ready. */
  lemma InitialTabChoice(allPresent: bool, firebaseReady: bool, emailLink: bool)
    ensures var t := InitialTab(allPresent, firebaseReady, emailLink);
      t.Some? ==> t.value in TabKinds && t.value != "phone" && (t.value == "password" <==> !firebaseReady)
  {
  }
}
