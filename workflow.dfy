/**
 * The four-step Udyam registration workflow as values: the component state,
 * the outcome of a remote call, the request each handler sends, and one
 * function per submit handler that gives the state after the handler has run.
 */
module Workflow {
  import opened Text

  /** The step numbers: 1 Aadhaar, 2 OTP, 3 PAN, 4 registration form. */
  type StepNo = k: int | 1 <= k <= 4 witness 1

  datatype Option<T> = None | Some(value: T)

  /**
   * What a remote call ends with. `Transport` stands for every exception the
   * handler catches: an unreachable server, a body that is not JSON, or a body
   * that is JSON `null` (reading a property of it throws). `Reply` carries
   * `response.ok`, the truthiness of `data.success` and `data.message`, with ""
   * for an absent or empty message; any other body that is not an object
   * (`5`, `"x"`, `true`) has neither property and is `Reply(_, false, "")`.
   */
  datatype Outcome =
    | Transport
    | Reply(ok: bool, success: bool, message: string)

  /** `response.ok && data.success` */
  predicate Accepted(o: Outcome) {
    o.Reply? && o.ok && o.success
  }

  datatype Business = Business(
    organizationType: string,
    businessName: string,
    businessAddress: string,
    bankAccount: string,
    ifscCode: string,
    businessActivity: string,
    nicCode: string,
    numEmployees: string)

  datatype BusinessField =
    | OrganizationType | BusinessName | BusinessAddress | BankAccount
    | IfscCode | BusinessActivity | NicCode | NumEmployees

  datatype Fields = Fields(
    aadhaarNumber: string,
    entrepreneurName: string,
    hasConsent: bool,
    otp: string,
    panNumber: string,
    business: Business)

  /** The error slots; "" is an empty slot, which the forms do not display. */
  datatype Errors = Errors(
    aadhaarError: string,
    consentError: string,
    otpError: string,
    panError: string,
    registrationError: string)

  datatype State = State(step: StepNo, fields: Fields, errors: Errors, isLoading: bool)

  /** The body of each POST, one constructor per endpoint. */
  datatype Request =
    | AadhaarValidate(aadhaarNumber: string, entrepreneurName: string)          // /api/aadhaar-validate
    | OtpValidate(aadhaarNumber: string, otp: string)                           // /api/otp-validate
    | PanValidate(panNumber: string)                                            // /api/pan-validate
    | RegistrationData(aadhaarNumber: string, entrepreneurName: string,
                       panNumber: string, business: Business)                   // /api/submit-registration

  /**
   * What a submit handler leaves behind: the new state, the request it sent
   * (None when the local checks stopped it), and whether it showed the
   * "submitted successfully" acknowledgement.
   */
  datatype Submission = Submission(state: State, request: Option<Request>, acknowledged: bool)

  const AadhaarFormatMessage := "Aadhaar number must be a 12-digit number."
  const ConsentMessage := "You must agree to the terms and conditions."
  const AadhaarDefaultMessage := "An error occurred during Aadhaar validation."
  const OtpDefaultMessage := "Invalid OTP. Please try again."
  const PanDefaultMessage := "An error occurred during PAN validation."
  const RequiredFieldsMessage := "Please fill in all required fields."
  const RegistrationDefaultMessage := "Failed to submit registration."
  const NetworkMessage := "Network error. Failed to connect to the backend."
  const RegistrationNetworkMessage := "Network error. Failed to submit registration."

  const EmptyBusiness := Business("", "", "", "", "", "", "", "")

  /** The `useState` initial values; the workflow starts settled on step 1 with no errors shown. */
  function Initial(): (r: State)
    ensures r.step == 1 && Settled(r)
    ensures r.errors == Errors("", "", "", "", "")
    // nothing is filled in yet: neither local check of the first step can pass
    ensures !r.fields.hasConsent && !IsTwelveDigits(r.fields.aadhaarNumber)
    ensures !RequiredFilled(r.fields.business)
  {
    State(1, Fields("", "", false, "", "", EmptyBusiness), Errors("", "", "", "", ""), false)
  }

  /** The message a failed call leaves: `data.message || default`, or the network text when the call threw. */
  function FailureText(o: Outcome, default: string, network: string): (m: string)
    requires !Accepted(o)
    ensures o.Transport? ==> m == network
    ensures o.Reply? && o.message != "" ==> m == o.message
    ensures o.Reply? && o.message == "" ==> m == default
    // a failed call always leaves a visible message when both fallbacks are non-empty
    ensures default != "" && network != "" ==> m != ""
  {
    match o
    case Transport => network
    case Reply(_, _, message) => if message != "" then message else default
  }

  predicate IsRequired(f: BusinessField) {
    !(f.BusinessAddress? || f.NumEmployees?)
  }

  function FieldValue(b: Business, f: BusinessField): string {
    match f
    case OrganizationType => b.organizationType
    case BusinessName => b.businessName
    case BusinessAddress => b.businessAddress
    case BankAccount => b.bankAccount
    case IfscCode => b.ifscCode
    case BusinessActivity => b.businessActivity
    case NicCode => b.nicCode
    case NumEmployees => b.numEmployees
  }

  /** The onChange of one registration input: that field takes the new value, the others keep theirs. */
  function WithField(b: Business, f: BusinessField, v: string): (r: Business)
    ensures FieldValue(r, f) == v
    ensures forall g :: g != f ==> FieldValue(r, g) == FieldValue(b, g)
  {
    match f
    case OrganizationType => b.(organizationType := v)
    case BusinessName => b.(businessName := v)
    case BusinessAddress => b.(businessAddress := v)
    case BankAccount => b.(bankAccount := v)
    case IfscCode => b.(ifscCode := v)
    case BusinessActivity => b.(businessActivity := v)
    case NicCode => b.(nicCode := v)
    case NumEmployees => b.(numEmployees := v)
  }

  /** The negation of the guard that rejects the registration form locally. */
  predicate RequiredFilled(b: Business) {
    b.organizationType != "" && b.businessName != "" && b.bankAccount != ""
    && b.ifscCode != "" && b.businessActivity != "" && b.nicCode != ""
  }

  /** The guard is exactly "every required field is non-empty"; address and employee count play no part. */
  lemma RequiredFilledIsPerField(b: Business)
    ensures RequiredFilled(b) <==> forall f :: IsRequired(f) ==> FieldValue(b, f) != ""
  {
    if RequiredFilled(b) {
      forall f | IsRequired(f) ensures FieldValue(b, f) != "" {
        match f
        case OrganizationType =>
        case BusinessName =>
        case BankAccount =>
        case IfscCode =>
        case BusinessActivity =>
        case NicCode =>
      }
    } else {
      var f :=
        if b.organizationType == "" then OrganizationType
        else if b.businessName == "" then BusinessName
        else if b.bankAccount == "" then BankAccount
        else if b.ifscCode == "" then IfscCode
        else if b.businessActivity == "" then BusinessActivity
        else NicCode;
      assert IsRequired(f) && FieldValue(b, f) == "";
    }
  }

  /** handleAadhaarSubmit */
  function AadhaarSubmit(s: State, o: Outcome): (r: Submission)
    requires s.step == 1
    // the call is made exactly when both local checks pass, and carries the number and the name
    ensures r.request.Some? <==> IsTwelveDigits(s.fields.aadhaarNumber) && s.fields.hasConsent
    ensures r.request.Some? ==> r.request.value == AadhaarValidate(s.fields.aadhaarNumber, s.fields.entrepreneurName)
    // local checks: both are reported in the same submit
    ensures !IsTwelveDigits(s.fields.aadhaarNumber) ==> r.state.errors.aadhaarError == AadhaarFormatMessage
    ensures !s.fields.hasConsent ==> r.state.errors.consentError == ConsentMessage
    ensures s.fields.hasConsent ==> r.state.errors.consentError == ""
    ensures IsTwelveDigits(s.fields.aadhaarNumber) && !s.fields.hasConsent ==> r.state.errors.aadhaarError == ""
    // the reply: one step forward on acceptance, otherwise a message and the same step
    ensures r.state.step == if r.request.Some? && Accepted(o) then 2 else 1
    ensures r.request.Some? && Accepted(o) ==> r.state.errors.aadhaarError == ""
    ensures r.request.Some? && o.Transport? ==> r.state.errors.aadhaarError == NetworkMessage
    ensures r.request.Some? && o.Reply? && !Accepted(o) ==>
      r.state.errors.aadhaarError == if o.message != "" then o.message else AadhaarDefaultMessage
    // isLoading is reset whenever it was raised, and not touched otherwise
    ensures r.state.isLoading == (s.isLoading && r.request.None?)
    // nothing else changes
    ensures r.state.fields == s.fields
    ensures r.state.errors.(aadhaarError := s.errors.aadhaarError, consentError := s.errors.consentError) == s.errors
    ensures !r.acknowledged
  {
    var formatError := if IsTwelveDigits(s.fields.aadhaarNumber) then "" else AadhaarFormatMessage;
    var consentError := if s.fields.hasConsent then "" else ConsentMessage;
    var checked := s.(errors := s.errors.(aadhaarError := formatError, consentError := consentError));
    if formatError != "" || consentError != "" then
      Submission(checked, None, false)
    else
      var request := AadhaarValidate(s.fields.aadhaarNumber, s.fields.entrepreneurName);
      if Accepted(o) then
        Submission(checked.(step := 2, isLoading := false), Some(request), false)
      else
        var failed := checked.errors.(aadhaarError := FailureText(o, AadhaarDefaultMessage, NetworkMessage));
        Submission(checked.(errors := failed, isLoading := false), Some(request), false)
  }

  /** handleOtpSubmit: no local checks; the call is always made. */
  function OtpSubmit(s: State, o: Outcome): (r: Submission)
    requires s.step == 2
    ensures r.request == Some(OtpValidate(s.fields.aadhaarNumber, s.fields.otp))
    ensures r.state.step == if Accepted(o) then 3 else 2
    ensures Accepted(o) ==> r.state.errors.otpError == ""
    ensures o.Transport? ==> r.state.errors.otpError == NetworkMessage
    ensures o.Reply? && !Accepted(o) ==>
      r.state.errors.otpError == if o.message != "" then o.message else OtpDefaultMessage
    ensures r.state.fields == s.fields && r.state.isLoading == s.isLoading
    ensures r.state.errors.(otpError := s.errors.otpError) == s.errors
    ensures !r.acknowledged
  {
    var request := Some(OtpValidate(s.fields.aadhaarNumber, s.fields.otp));
    if Accepted(o) then
      Submission(s.(step := 3, errors := s.errors.(otpError := "")), request, false)
    else
      Submission(s.(errors := s.errors.(otpError := FailureText(o, OtpDefaultMessage, NetworkMessage))), request, false)
  }

  /** handlePanSubmit: no local checks; the call is always made. */
  function PanSubmit(s: State, o: Outcome): (r: Submission)
    requires s.step == 3
    ensures r.request == Some(PanValidate(s.fields.panNumber))
    ensures r.state.step == if Accepted(o) then 4 else 3
    ensures Accepted(o) ==> r.state.errors.panError == ""
    ensures o.Transport? ==> r.state.errors.panError == NetworkMessage
    ensures o.Reply? && !Accepted(o) ==>
      r.state.errors.panError == if o.message != "" then o.message else PanDefaultMessage
    ensures r.state.fields == s.fields && r.state.isLoading == s.isLoading
    ensures r.state.errors.(panError := s.errors.panError) == s.errors
    ensures !r.acknowledged
  {
    var request := Some(PanValidate(s.fields.panNumber));
    if Accepted(o) then
      Submission(s.(step := 4, errors := s.errors.(panError := "")), request, false)
    else
      Submission(s.(errors := s.errors.(panError := FailureText(o, PanDefaultMessage, NetworkMessage))), request, false)
  }

  /** handleRegistrationSubmit: the last step; success is acknowledged and the step stays 4. */
  function RegistrationSubmit(s: State, o: Outcome): (r: Submission)
    requires s.step == 4
    ensures r.request.Some? <==> RequiredFilled(s.fields.business)
    ensures r.request.Some? ==>
      r.request.value == RegistrationData(s.fields.aadhaarNumber, s.fields.entrepreneurName,
                                          s.fields.panNumber, s.fields.business)
    ensures !RequiredFilled(s.fields.business) ==> r.state.errors.registrationError == RequiredFieldsMessage
    ensures r.acknowledged <==> r.request.Some? && Accepted(o)
    ensures r.acknowledged ==> r.state.errors.registrationError == ""
    ensures r.request.Some? && o.Transport? ==> r.state.errors.registrationError == RegistrationNetworkMessage
    ensures r.request.Some? && o.Reply? && !Accepted(o) ==>
      r.state.errors.registrationError == if o.message != "" then o.message else RegistrationDefaultMessage
    ensures r.state.step == 4
    ensures r.state.fields == s.fields && r.state.isLoading == s.isLoading
    ensures r.state.errors.(registrationError := s.errors.registrationError) == s.errors
  {
    if !RequiredFilled(s.fields.business) then
      Submission(s.(errors := s.errors.(registrationError := RequiredFieldsMessage)), None, false)
    else
      var request := Some(RegistrationData(s.fields.aadhaarNumber, s.fields.entrepreneurName,
                                           s.fields.panNumber, s.fields.business));
      if Accepted(o) then
        Submission(s.(errors := s.errors.(registrationError := "")), request, true)
      else
        var message := FailureText(o, RegistrationDefaultMessage, RegistrationNetworkMessage);
        Submission(s.(errors := s.errors.(registrationError := message)), request, false)
  }

  /**
   * A failed attempt's message never survives the next attempt: what a handler
   * writes into its own slot does not depend on what was there before.
   */
  lemma StaleErrorIsCleared(s: State, o: Outcome, stale: string)
    ensures s.step == 1 ==>
      AadhaarSubmit(s.(errors := s.errors.(aadhaarError := stale, consentError := stale)), o).state.errors
        == AadhaarSubmit(s, o).state.errors
    ensures s.step == 2 ==>
      OtpSubmit(s.(errors := s.errors.(otpError := stale)), o).state.errors == OtpSubmit(s, o).state.errors
    ensures s.step == 3 ==>
      PanSubmit(s.(errors := s.errors.(panError := stale)), o).state.errors == PanSubmit(s, o).state.errors
    ensures s.step == 4 ==>
      RegistrationSubmit(s.(errors := s.errors.(registrationError := stale)), o).state.errors
        == RegistrationSubmit(s, o).state.errors
  {
  }

  /**
   * What the user can do. An input or a submit belongs to one step's form and
   * only exists while `step` shows that form.
   */
  datatype Event =
    | AadhaarNumberChanged(value: string)
    | EntrepreneurNameChanged(value: string)
    | ConsentChanged(checked: bool)
    | OtpChanged(value: string)
    | PanNumberChanged(value: string)
    | BusinessFieldChanged(field: BusinessField, value: string)
    | AadhaarSubmitted(outcome: Outcome)
    | OtpSubmitted(outcome: Outcome)
    | PanSubmitted(outcome: Outcome)
    | RegistrationSubmitted(outcome: Outcome)

  /** The step whose form holds the event's input or submit button. */
  function FormOf(e: Event): StepNo {
    match e
    case AadhaarNumberChanged(_) => 1
    case EntrepreneurNameChanged(_) => 1
    case ConsentChanged(_) => 1
    case AadhaarSubmitted(_) => 1
    case OtpChanged(_) => 2
    case OtpSubmitted(_) => 2
    case PanNumberChanged(_) => 3
    case PanSubmitted(_) => 3
    case BusinessFieldChanged(_, _) => 4
    case RegistrationSubmitted(_) => 4
  }

  /**
   * A submit of the Aadhaar, OTP or PAN form carrying an accepted outcome: the
   * only events that can move the workflow on. An Aadhaar submit stopped by its
   * local checks is counted too, although it makes no call, so counts of these
   * events bound the steps taken from above.
   */
  predicate Advances(e: Event) {
    (e.AadhaarSubmitted? || e.OtpSubmitted? || e.PanSubmitted?) && Accepted(e.outcome)
  }

  /** The invariant of every reachable state: nothing is loading between events and the PAN is upper case. */
  predicate Settled(s: State) {
    !s.isLoading && IsUpperAscii(s.fields.panNumber)
  }

  /** One event; an event whose form is not shown cannot happen and leaves the state alone. */
  function Apply(s: State, e: Event): (r: State)
    ensures FormOf(e) != s.step ==> r == s
    ensures r.step == s.step || (r.step == s.step + 1 && Advances(e) && FormOf(e) == s.step)
    ensures Settled(s) ==> Settled(r)
  {
    if FormOf(e) != s.step then s
    else
      match e
      case AadhaarNumberChanged(v) => s.(fields := s.fields.(aadhaarNumber := v))
      case EntrepreneurNameChanged(v) => s.(fields := s.fields.(entrepreneurName := v))
      case ConsentChanged(b) => s.(fields := s.fields.(hasConsent := b))
      case OtpChanged(v) => s.(fields := s.fields.(otp := v))
      case PanNumberChanged(v) => s.(fields := s.fields.(panNumber := ToUpperAscii(v)))
      case BusinessFieldChanged(f, v) => s.(fields := s.fields.(business := WithField(s.fields.business, f, v)))
      case AadhaarSubmitted(o) => AadhaarSubmit(s, o).state
      case OtpSubmitted(o) => OtpSubmit(s, o).state
      case PanSubmitted(o) => PanSubmit(s, o).state
      case RegistrationSubmitted(o) => RegistrationSubmit(s, o).state
  }

  function Run(s: State, es: seq<Event>): State
    decreases |es|
  {
    if es == [] then s else Run(Apply(s, es[0]), es[1..])
  }

  function CountAdvances(es: seq<Event>): nat
    decreases |es|
  {
    if es == [] then 0 else (if Advances(es[0]) then 1 else 0) + CountAdvances(es[1..])
  }

  /**
   * Along any run the step never goes back, and it goes up by at most one per
   * submit carrying an accepted outcome. This rests on each handler running
   * atomically: the OTP and PAN buttons are never disabled and each handler
   * assigns a constant step, so two overlapping OTP submits could move the
   * step from 4 back to 3 when the later reply arrives.
   */
  lemma {:induction false} RunIsForwardOnly(s: State, es: seq<Event>)
    ensures s.step <= Run(s, es).step <= s.step + CountAdvances(es)
    decreases |es|
  {
    if es != [] {
      RunIsForwardOnly(Apply(s, es[0]), es[1..]);
    }
  }

  lemma {:induction false} RunStaysSettled(s: State, es: seq<Event>)
    requires Settled(s)
    ensures Settled(Run(s, es))
    decreases |es|
  {
    if es != [] {
      RunStaysSettled(Apply(s, es[0]), es[1..]);
    }
  }

  /**
   * From a fresh session no step is skipped: reaching the registration form
   * takes at least three submits carrying an accepted outcome, and every
   * state met on the way has isLoading false and an upper-case PAN.
   */
  lemma FromInitial(es: seq<Event>)
    ensures Run(Initial(), es).step - 1 <= CountAdvances(es)
    ensures Run(Initial(), es).step == 4 ==> CountAdvances(es) >= 3
    ensures Settled(Run(Initial(), es))
  {
    RunIsForwardOnly(Initial(), es);
    RunStaysSettled(Initial(), es);
  }
}
