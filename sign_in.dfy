/** The sign-in form's validation bookkeeping (src/containers/SignIn.js).

    The two validators are helpers whose definitions are not part of this
    model; the form receives them as abstract predicates. The requests handed
    to `onSignIn` are kept, in order, in `requests`. */
module SignIn {

  /** The state field a validation step writes. */
  datatype ErrorField = EmailError | PasswordError

  /** The payload of `onSignIn`. */
  datatype Credentials = Credentials(email: string, password: string)

  const WrongEmailMessage: string := "Wrong type of email"
  const EmptyFieldMessage: string := "This field cannot be empty"

  class SignInForm {
    const validateEmail: string -> bool
    const isEmpty: string -> bool

    var email: string
    var password: string
    var emailError: string
    var passwordError: string
    var focusInput: bool
    var requests: seq<Credentials>

    function ErrorOf(field: ErrorField): string
      reads this
    {
      match field
      case EmailError => emailError
      case PasswordError => passwordError
    }

    /** The initial state: every text field empty, no request sent. */
    constructor (validateEmail: string -> bool, isEmpty: string -> bool)
      ensures this.validateEmail == validateEmail && this.isEmpty == isEmpty
      ensures email == "" && password == "" && emailError == "" && passwordError == ""
      ensures !focusInput && requests == []
    {
      this.validateEmail := validateEmail;
      this.isEmpty := isEmpty;
      email, password := "", "";
      emailError, passwordError := "", "";
      focusInput := false;
      requests := [];
    }

    /** Typing into the email input. */
    method ChangeEmail(text: string)
      modifies this`email
      ensures email == text
    {
      email := text;
    }

    /** Typing into the password input. */
    method ChangePassword(text: string)
      modifies this`password
      ensures password == text
    {
      password := text;
    }

    /** `_validation`: the named error field becomes "" when `validate` accepts
        `data`, and `errorMessage` otherwise; the other error field is kept. */
    method Validation(errorType: ErrorField, errorMessage: string, validate: string -> bool, data: string)
      returns (ok: bool)
      modifies this`emailError, this`passwordError
      ensures ok == validate(data)
      ensures ErrorOf(errorType) == (if ok then "" else errorMessage)
      ensures errorType == EmailError ==> passwordError == old(passwordError)
      ensures errorType == PasswordError ==> emailError == old(emailError)
    {
      if validate(data) {
        match errorType {
          case EmailError => emailError := "";
          case PasswordError => passwordError := "";
        }
        return true;
      }
      match errorType {
        case EmailError => emailError := errorMessage;
        case PasswordError => passwordError := errorMessage;
      }
      return false;
    }

    /** `_validateData`: both steps run, so both error fields are refreshed
        even when the email is rejected; the outcome is their conjunction. */
    method ValidateData() returns (ok: bool)
      modifies this`emailError, this`passwordError
      ensures ok == (validateEmail(email) && isEmpty(password))
      ensures emailError == (if validateEmail(email) then "" else WrongEmailMessage)
      ensures passwordError == (if isEmpty(password) then "" else EmptyFieldMessage)
    {
      var isValidEmail := Validation(EmailError, WrongEmailMessage, validateEmail, email);
      var isValidPassword := Validation(PasswordError, EmptyFieldMessage, isEmpty, password);
      ok := isValidEmail && isValidPassword;
    }

    /** `_signIn`: one request with the current email and password is sent
        exactly when validation passes; otherwise none. */
    method SignIn()
      modifies this`emailError, this`passwordError, this`requests
      ensures emailError == (if validateEmail(email) then "" else WrongEmailMessage)
      ensures passwordError == (if isEmpty(password) then "" else EmptyFieldMessage)
      ensures requests == old(requests) +
                (if validateEmail(email) && isEmpty(password) then [Credentials(email, password)] else [])
    {
      var signInData := Credentials(email, password);
      var valid := ValidateData();
      if valid {
        requests := requests + [signInData];
      }
    }
  }
}
