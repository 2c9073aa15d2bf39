/** The registration page: it posts the new account and, on success, drops any
    stale session from storage and goes to the login page. */
module Register {
  import opened Common
  import opened Storage

  function RegisterCall(username: string, email: string, password: string): Call
  {
    Call(Post, "api/user/register/",
         map["username" := Str(username), "email" := Str(email), "password" := Str(password)])
  }

  class RegisterPage {
    var isLoading: bool
    var username: string
    var email: string
    var password: string

    constructor ()
      ensures !isLoading && username == "" && email == "" && password == ""
    {
      isLoading, username, email, password := false, "", "", "";
    }

    method SetUsername(value: string)
      modifies this`username
      ensures username == value
    {
      username := value;
    }

    method SetEmail(value: string)
      modifies this`email
      ensures email == value
    {
      email := value;
    }

    method SetPassword(value: string)
      modifies this`password
      ensures password == value
    {
      password := value;
    }

    /** `handleSubmit` up to the call. */
    method Submit() returns (call: Call)
      modifies this`isLoading
      ensures isLoading
      ensures call == RegisterCall(username, email, password)
      ensures call.body.Keys == {"username", "email", "password"}
    {
      isLoading := true;
      call := RegisterCall(username, email, password);
    }

    /** `handleSubmit` once the call has settled: storage cleared and a move
        to `/login` on success, only an alert on failure. */
    method Settle(storage: LocalStorage, response: Response<Body>)
      returns (navigateTo: Option<string>)
      modifies this`isLoading, storage
      ensures !isLoading
      ensures response.Ok? ==> storage.items == map[] && navigateTo == Some("/login")
      ensures response.Fail? ==> storage.items == old(storage.items) && navigateTo == None
    {
      navigateTo := None;
      if response.Ok? {
        storage.Clear();
        navigateTo := Some("/login");
      }
      isLoading := false;
    }
  }
}
