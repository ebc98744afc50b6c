/** The login page: the email step, then the one-time-password step for the
    address the first step accepted, with a way back. */
module LoginPage {

  datatype Step = EmailStep | OtpStep

  /** The one component on screen (the OTP form is given the email) */
  datatype Screen = EmailScreen | OtpScreen(email: string)

  class LoginFlow {
    var currentStep: Step
    var email: string

    constructor ()
      ensures currentStep == EmailStep && email == ""
      ensures Shown() == EmailScreen
    {
      currentStep := EmailStep;
      email := "";
    }

    /** Exactly one of the two forms is rendered, chosen by the step */
    function Shown(): (screen: Screen)
      reads this
      ensures screen.EmailScreen? <==> currentStep == EmailStep
      ensures screen.OtpScreen? ==> screen.email == email
    {
      match currentStep
      case EmailStep => EmailScreen
      case OtpStep => OtpScreen(email)
    }

    /** `handleEmailSuccess` */
    method EmailSucceeded(userEmail: string)
      modifies this
      ensures currentStep == OtpStep && email == userEmail
      ensures Shown() == OtpScreen(userEmail)
    {
      email := userEmail;
      currentStep := OtpStep;
    }

    /** `handleBackToEmail`: the address is forgotten */
    method BackToEmail()
      modifies this
      ensures currentStep == EmailStep && email == ""
      ensures Shown() == EmailScreen
    {
      currentStep := EmailStep;
      email := "";
    }
  }
}
