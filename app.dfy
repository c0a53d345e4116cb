/**
 * The `App` component's state and handlers. Each `useState` slot is a field of
 * `Session`; each handler is a method that updates the fields in the order the
 * component does, with the remote call's outcome passed in. Every method is
 * proved to leave the state that the matching function of `Workflow` gives.
 */
module App {
  import opened Text
  import opened Workflow

  class Session {
    var step: StepNo
    var aadhaarNumber: string
    var entrepreneurName: string
    var hasConsent: bool
    var aadhaarError: string
    var consentError: string
    var otp: string
    var otpError: string
    var panNumber: string
    var panError: string
    var organizationType: string
    var businessName: string
    var businessAddress: string
    var bankAccount: string
    var ifscCode: string
    var businessActivity: string
    var nicCode: string
    var numEmployees: string
    var registrationError: string
    var isLoading: bool

    function BusinessDetails(): Business
      reads this
    {
      Workflow.Business(organizationType, businessName, businessAddress, bankAccount,
                        ifscCode, businessActivity, nicCode, numEmployees)
    }

    /** The component state as a value. */
    function Snapshot(): State
      reads this
    {
      State(step,
            Fields(aadhaarNumber, entrepreneurName, hasConsent, otp, panNumber, BusinessDetails()),
            Errors(aadhaarError, consentError, otpError, panError, registrationError),
            isLoading)
    }

    /** The initial `useState` values: step 1, every input and error empty, no consent, not loading. */
    constructor ()
      ensures Snapshot() == Initial()
    {
      step := 1;
      aadhaarNumber, entrepreneurName, hasConsent := "", "", false;
      aadhaarError, consentError := "", "";
      otp, otpError := "", "";
      panNumber, panError := "", "";
      organizationType, businessName, businessAddress, bankAccount := "", "", "", "";
      ifscCode, businessActivity, nicCode, numEmployees := "", "", "", "";
      registrationError := "";
      isLoading := false;
    }

    /** The PAN input's onChange: the field holds the upper case of what was typed. */
    method ChangePanNumber(typed: string)
      requires step == 3
      modifies this
      ensures panNumber == ToUpperAscii(typed) && IsUpperAscii(panNumber)
      ensures Snapshot() == Apply(old(Snapshot()), PanNumberChanged(typed))
    {
      panNumber := ToUpperAscii(typed);
    }

    method HandleAadhaarSubmit(outcome: Outcome) returns (request: Option<Request>)
      requires step == 1
      modifies this
      ensures var r := AadhaarSubmit(old(Snapshot()), outcome); Snapshot() == r.state && request == r.request
    {
      aadhaarError := "";
      consentError := "";
      var isValid := true;

      if !IsTwelveDigits(aadhaarNumber) {
        aadhaarError := AadhaarFormatMessage;
        isValid := false;
      }

      if !hasConsent {
        consentError := ConsentMessage;
        isValid := false;
      }

      request := None;
      if isValid {
        isLoading := true;
        request := Some(AadhaarValidate(aadhaarNumber, entrepreneurName));
        if Accepted(outcome) {
          step := 2;
        } else {
          aadhaarError := FailureText(outcome, AadhaarDefaultMessage, NetworkMessage);
        }
        isLoading := false;
      }
    }

    method HandleOtpSubmit(outcome: Outcome) returns (request: Option<Request>)
      requires step == 2
      modifies this
      ensures var r := OtpSubmit(old(Snapshot()), outcome); Snapshot() == r.state && request == r.request
    {
      otpError := "";
      request := Some(OtpValidate(aadhaarNumber, otp));
      if Accepted(outcome) {
        step := 3;
      } else {
        otpError := FailureText(outcome, OtpDefaultMessage, NetworkMessage);
      }
    }

    method HandlePanSubmit(outcome: Outcome) returns (request: Option<Request>)
      requires step == 3
      modifies this
      ensures var r := PanSubmit(old(Snapshot()), outcome); Snapshot() == r.state && request == r.request
    {
      panError := "";
      request := Some(PanValidate(panNumber));
      if Accepted(outcome) {
        step := 4;
      } else {
        panError := FailureText(outcome, PanDefaultMessage, NetworkMessage);
      }
    }

    /** `acknowledged` stands for the success alert. */
    method HandleRegistrationSubmit(outcome: Outcome) returns (request: Option<Request>, acknowledged: bool)
      requires step == 4
      modifies this
      ensures var r := RegistrationSubmit(old(Snapshot()), outcome);
        Snapshot() == r.state && request == r.request && acknowledged == r.acknowledged
    {
      registrationError := "";
      var registrationData := RegistrationData(aadhaarNumber, entrepreneurName, panNumber, BusinessDetails());

      acknowledged := false;
      if organizationType == "" || businessName == "" || bankAccount == "" || ifscCode == ""
         || businessActivity == "" || nicCode == "" {
        registrationError := RequiredFieldsMessage;
        request := None;
        return;
      }

      request := Some(registrationData);
      if Accepted(outcome) {
        acknowledged := true;
      } else {
        registrationError := FailureText(outcome, RegistrationDefaultMessage, RegistrationNetworkMessage);
      }
    }
  }

  /** A session driven through all four steps with accepted replies ends on the registration form. */
  method HappyPath(o: Outcome)
    requires Accepted(o)
  {
    var session := new Session();
    session.aadhaarNumber := "381467472016";
    session.hasConsent := true;
    TwelveDigitExamples();
    var sent := session.HandleAadhaarSubmit(o);
    assert sent.Some? && session.step == 2;
    sent := session.HandleOtpSubmit(o);
    sent := session.HandlePanSubmit(o);
    assert session.step == 4;
    session.organizationType, session.businessName, session.bankAccount := "company", "B", "1";
    session.ifscCode, session.businessActivity, session.nicCode := "I", "A", "28220";
    var acknowledged;
    sent, acknowledged := session.HandleRegistrationSubmit(o);
    assert acknowledged && session.step == 4 && session.registrationError == "";
  }
}
