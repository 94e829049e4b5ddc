/**
 * The log-in page: two inputs and a submit that only checks both are
 * filled in.
 */
module Login {

  datatype Field = EmailInput | PasswordInput

  datatype LoginForm = LoginForm(email: string, password: string)

  /** The string an input shows. */
  function Value(f: LoginForm, field: Field): string {
    match field
    case EmailInput => f.email
    case PasswordInput => f.password
  }

  /** How a submit ends: an error message, or a move to another page. */
  datatype SubmitOutcome = Rejected(message: string) | NavigateTo(path: string)

  const REQUIRED_MESSAGE: string := "Email and password are required."

  /** The page's state. */
  class LoginPage {
    var form: LoginForm

    constructor()
      ensures form == LoginForm("", "")
    {
      form := LoginForm("", "");
    }

    /** `handleChange`: the named input takes the value, the other keeps its. */
    method HandleChange(field: Field, value: string)
      modifies this
      ensures Value(form, field) == value
      ensures forall other :: other != field ==> Value(form, other) == Value(old(form), other)
    {
      match field
      case EmailInput => form := form.(email := value);
      case PasswordInput => form := form.(password := value);
    }

    /** `handleSubmit`: either input empty is refused with one message; any
        two non-empty strings (no format check) move to the dashboard. */
    method HandleSubmit() returns (r: SubmitOutcome)
      ensures form.email == "" || form.password == "" ==> r == Rejected(REQUIRED_MESSAGE)
      ensures form.email != "" && form.password != "" ==> r == NavigateTo("/dashboard")
    {
      if form.email == "" || form.password == "" {
        return Rejected(REQUIRED_MESSAGE);
      }
      return NavigateTo("/dashboard");
    }
  }
}
