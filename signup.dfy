/** The sign-up page: the form schema, and what a submission shows: a field
    error and a failure notice chosen by the authentication error code, or a
    welcome notice and the move to the dashboard. */
module SignUp {
  import opened Wrappers

  datatype SignUpValues = SignUpValues(name: string, email: string, password: string)

  datatype SignUpField = Name | Email | Password

  datatype FieldError = FieldError(field: SignUpField, message: string)

  const NameMinLength: nat := 2
  const PasswordMinLength: nat := 6

  const NameMessage: string := "Name must be at least 2 characters."
  const EmailMessage: string := "Please enter a valid email address."
  const PasswordMessage: string := "Password must be at least 6 characters."

  /** The form schema. Whether the email is well formed is the schema
      library's own check, given here as `emailWellFormed`. Every broken rule
      is reported, in field order. */
  function ValidateSignUp(values: SignUpValues, emailWellFormed: bool): (r: Result<SignUpValues, seq<FieldError>>)
    ensures r.Success? <==> |values.name| >= NameMinLength && emailWellFormed && |values.password| >= PasswordMinLength
    ensures r.Success? ==> r.value == values
    ensures r.Failure? ==>
              && (FieldError(Name, NameMessage) in r.error <==> |values.name| < NameMinLength)
              && (FieldError(Email, EmailMessage) in r.error <==> !emailWellFormed)
              && (FieldError(Password, PasswordMessage) in r.error <==> |values.password| < PasswordMinLength)
              && |r.error| <= 3
    ensures r.Failure? ==> forall i :: 0 <= i < |r.error| ==>
              r.error[i] in [FieldError(Name, NameMessage), FieldError(Email, EmailMessage), FieldError(Password, PasswordMessage)]
  {
    var errors :=
      (if |values.name| < NameMinLength then [FieldError(Name, NameMessage)] else []) +
      (if !emailWellFormed then [FieldError(Email, EmailMessage)] else []) +
      (if |values.password| < PasswordMinLength then [FieldError(Password, PasswordMessage)] else []);
    if |errors| == 0 then Success(values) else Failure(errors)
  }

  const EmailInUseCode: string := "auth/email-already-in-use"
  const InvalidEmailCode: string := "auth/invalid-email"
  const WeakPasswordCode: string := "auth/weak-password"

  const GenericFailureMessage: string := "An unexpected error occurred. Please try again."
  const EmailInUseMessage: string := "This email address is already in use. Please log in or use a different email."
  const InvalidEmailMessage: string := "Please enter a valid email address."
  const WeakPasswordMessage: string := "The password is too weak. Please use at least 6 characters."

  /** An error code the page recognises. */
  predicate KnownCode(code: Option<string>)
  {
    code == Some(EmailInUseCode) || code == Some(InvalidEmailCode) || code == Some(WeakPasswordCode)
  }

  /** The `catch` branch's choice: the message, and the field it is also set
      on, for the error's `code` (absent when the error carries none). */
  method FailureReport(code: Option<string>) returns (field: Option<SignUpField>, errorMessage: string)
    ensures code == Some(EmailInUseCode) ==> field == Some(Email) && errorMessage == EmailInUseMessage
    ensures code == Some(InvalidEmailCode) ==> field == Some(Email) && errorMessage == InvalidEmailMessage
    ensures code == Some(WeakPasswordCode) ==> field == Some(Password) && errorMessage == WeakPasswordMessage
    ensures !KnownCode(code) ==> field.None? && errorMessage == GenericFailureMessage
    ensures field.Some? <==> KnownCode(code)
  {
    field := None;
    errorMessage := GenericFailureMessage;
    if code == Some(EmailInUseCode) {
      errorMessage := EmailInUseMessage;
      field := Some(Email);
    } else if code == Some(InvalidEmailCode) {
      errorMessage := InvalidEmailMessage;
      field := Some(Email);
    } else if code == Some(WeakPasswordCode) {
      errorMessage := WeakPasswordMessage;
      field := Some(Password);
    }
  }

  /** What one authentication call did: returned normally, or threw an error
      with an optional `code`. */
  datatype AuthOutcome = Completed | Threw(code: Option<string>)

  datatype ToastVariant = Default | Destructive

  datatype Toast = Toast(variant: ToastVariant, title: string, description: string)

  const FailureTitle: string := "Sign Up Failed"
  const SuccessToast: Toast :=
    Toast(Default, "Account Created", "Welcome to Mockview AI! You're being redirected to your dashboard.")
  const DashboardPath: string := "/dashboard"

  /** The page's effects: the manual field errors set on the form, the notices
      shown and the routes pushed, in order. */
  class SignUpPage {
    var fieldErrors: map<SignUpField, string>
    var toasts: seq<Toast>
    var pushed: seq<string>

    constructor ()
      ensures fieldErrors == map[] && toasts == [] && pushed == []
    {
      fieldErrors := map[];
      toasts := [];
      pushed := [];
    }

    /** `onSubmit`, for validated `values`. `create` is what creating the
        account did and `update` what setting its display name did; the
        second is only attempted when the first completed. Either one
        throwing lands in the same `catch` branch. */
    method OnSubmit(values: SignUpValues, create: AuthOutcome, update: AuthOutcome)
      modifies this
      ensures create.Completed? && update.Completed? ==>
                && toasts == old(toasts) + [SuccessToast]
                && pushed == old(pushed) + [DashboardPath]
                && fieldErrors == old(fieldErrors)
      ensures create.Threw? || update.Threw? ==>
                var code := if create.Threw? then create.code else update.code;
                && pushed == old(pushed)
                && |toasts| == |old(toasts)| + 1 && toasts[..|old(toasts)|] == old(toasts)
                && toasts[|old(toasts)|].variant == Destructive
                && toasts[|old(toasts)|].title == FailureTitle
                && (code == Some(EmailInUseCode) ==>
                      fieldErrors == old(fieldErrors)[Email := EmailInUseMessage] && toasts[|old(toasts)|].description == EmailInUseMessage)
                && (code == Some(InvalidEmailCode) ==>
                      fieldErrors == old(fieldErrors)[Email := InvalidEmailMessage] && toasts[|old(toasts)|].description == InvalidEmailMessage)
                && (code == Some(WeakPasswordCode) ==>
                      fieldErrors == old(fieldErrors)[Password := WeakPasswordMessage] && toasts[|old(toasts)|].description == WeakPasswordMessage)
                && (!KnownCode(code) ==>
                      fieldErrors == old(fieldErrors) && toasts[|old(toasts)|].description == GenericFailureMessage)
    {
      var thrown: Option<Option<string>> := None;
      if create.Threw? {
        thrown := Some(create.code);
      } else if update.Threw? {
        thrown := Some(update.code);
      }
      if thrown.None? {
        toasts := toasts + [SuccessToast];
        pushed := pushed + [DashboardPath];
        return;
      }
      var field, errorMessage := FailureReport(thrown.value);
      if field.Some? {
        fieldErrors := fieldErrors[field.value := errorMessage];
      }
      toasts := toasts + [Toast(Destructive, FailureTitle, errorMessage)];
    }
  }
}
