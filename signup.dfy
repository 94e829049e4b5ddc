/**
 * The sign-up page: four inputs and a submit that checks, in order, that
 * the required ones are filled and that the two passwords agree.
 */
module Signup {

  datatype Field = NameInput | EmailInput | PasswordInput | ConfirmInput

  datatype SignupForm = SignupForm(name: string, email: string, password: string, confirm: string)

  /** The string an input shows. */
  function Value(f: SignupForm, field: Field): string {
    match field
    case NameInput => f.name
    case EmailInput => f.email
    case PasswordInput => f.password
    case ConfirmInput => f.confirm
  }

  /** How a submit ends: an error message, or a move to another page. */
  datatype SubmitOutcome = Rejected(message: string) | NavigateTo(path: string)

  const REQUIRED_MESSAGE: string := "All fields are required."
  const MISMATCH_MESSAGE: string := "Passwords do not match."

  /** The page's state. */
  class SignupPage {
    var form: SignupForm

    constructor()
      ensures form == SignupForm("", "", "", "")
    {
      form := SignupForm("", "", "", "");
    }

    /** `handleChange`: the named input takes the value, the others keep
        theirs. */
    method HandleChange(field: Field, value: string)
      modifies this
      ensures Value(form, field) == value
      ensures forall other :: other != field ==> Value(form, other) == Value(old(form), other)
    {
      match field
      case NameInput => form := form.(name := value);
      case EmailInput => form := form.(email := value);
      case PasswordInput => form := form.(password := value);
      case ConfirmInput => form := form.(confirm := value);
    }

    /** `handleSubmit`. The required check covers name, email and password
        (not the confirmation) and runs first; then the passwords must be
        equal; then the page moves to the login page. */
    method HandleSubmit() returns (r: SubmitOutcome)
      ensures form.name == "" || form.email == "" || form.password == "" ==> r == Rejected(REQUIRED_MESSAGE)
      ensures form.name != "" && form.email != "" && form.password != "" && form.password != form.confirm ==>
        r == Rejected(MISMATCH_MESSAGE)
      ensures r.NavigateTo? <==> form.name != "" && form.email != "" && form.password != "" && form.password == form.confirm
      ensures r.NavigateTo? ==> r.path == "/login"
    {
      if form.name == "" || form.email == "" || form.password == "" {
        return Rejected(REQUIRED_MESSAGE);
      }
      if form.password != form.confirm {
        return Rejected(MISMATCH_MESSAGE);
      }
      return NavigateTo("/login");
    }
  }
}
