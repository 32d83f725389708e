/** The login form (components/LoginScreen.tsx). */
module LoginScreen {
  import opened Types
  import opened JsStrings

  /** The form's two inputs. Submitting never clears them. */
  class LoginForm {
    var name: string
    var email: string

    constructor ()
      ensures name == "" && email == ""
    {
      name := "";
      email := "";
    }

    method SetName(v: string)
      modifies this`name
      ensures name == v
    {
      name := v;
    }

    method SetEmail(v: string)
      modifies this`email
      ensures email == v
    {
      email := v;
    }

    /** `handleSubmit`: the login goes through, with the values exactly as
        typed, when neither field is blank after trimming; otherwise nothing
        happens. The form keeps its values either way. */
    method Submit() returns (login: Option<(string, string)>)
      ensures login.Some? <==> !Blank(name) && !Blank(email)
      ensures login.Some? ==> login.value == (name, email)
    {
      TrimEmptyIff(name);
      TrimEmptyIff(email);
      if Trim(name) != "" && Trim(email) != "" {
        return Some((name, email));
      }
      return None;
    }
  }
}
