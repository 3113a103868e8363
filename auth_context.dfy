/** The auth session (contexts/AuthContext.tsx): the signed-in user, the token and
    the loading flag. REST, storage and presence calls are given as their outcomes. */
module AuthContext {
  import opened Wrappers
  import opened Types

  datatype AuthData = AuthData(user: User, token: string)

  /** What `/auth/login` and `/auth/register` answer. */
  datatype AuthResponse = AuthResponse(success: bool, message: string, data: Option<AuthData>)

  /** The error thrown for an answer without `success` or without `data`:
      the server's message, or the operation's fallback text when it is empty. */
  function RejectedAnswerError(response: AuthResponse, fallback: string): (e: Error)
    requires fallback != ""
    ensures e.status.None? && e.serverMessage.None? && e.message != ""
    ensures e.message == if response.message != "" then response.message else fallback
  {
    Error(None, None, if response.message != "" then response.message else fallback)
  }

  /** The answer that signs a user in. */
  predicate Accepted(response: Outcome<AuthResponse>)
    ensures Accepted(response) ==> response.Ok? && response.value.data.Some?
    ensures response.Ok? && !response.value.success ==> !Accepted(response)
  {
    response.Ok? && response.value.success && response.value.data.Some?
  }

  class AuthSession {
    var user: Option<User>
    var token: Option<string>
    var isLoading: bool

    constructor()
      ensures user.None? && token.None? && isLoading
    {
      user := None;
      token := None;
      isLoading := true;
    }

    /** `!!user && !!token`: an empty token does not authenticate. */
    predicate IsAuthenticated()
      reads this
      ensures IsAuthenticated() ==> user.Some? && token.Some?
      ensures token == Some("") ==> !IsAuthenticated()
    {
      user.Some? && token.Some? && token.value != ""
    }

    /** `loadStoredAuth`: the stored pair is restored only when both parts are there;
        the online-status report that follows may fail without undoing it.
        Reading storage never rejects (failures read as null). */
    method LoadStoredAuth(storedToken: Option<string>, storedUser: Option<User>)
      returns (reportsOnline: bool)
      modifies this
      ensures reportsOnline <==> IsTruthyText(storedToken) && storedUser.Some?
      ensures reportsOnline ==> token == storedToken && user == storedUser
      ensures !reportsOnline ==> token == old(token) && user == old(user)
      ensures !isLoading
    {
      reportsOnline := false;
      if IsTruthyText(storedToken) && storedUser.Some? {
        token := storedToken;
        user := storedUser;
        reportsOnline := true;
      }
      isLoading := false;
    }

    /** The body shared by `login` and `register`; `saved` is how storing the token
        and the user settled, and `fallback` the operation's default error text. */
    method Authenticate(response: Outcome<AuthResponse>, saved: Outcome<()>, fallback: string)
      returns (result: Completion)
      requires fallback != ""
      modifies this
      ensures Accepted(response) && saved.Ok? ==>
        result == Returned && user == Some(response.value.data.value.user) && token == Some(response.value.data.value.token)
      ensures !(Accepted(response) && saved.Ok?) ==> result.Threw? && user == old(user) && token == old(token)
      ensures response.Fail? ==> result == Threw(response.error)
      ensures response.Ok? && !Accepted(response) ==> result == Threw(RejectedAnswerError(response.value, fallback))
      ensures Accepted(response) && saved.Fail? ==> result == Threw(saved.error)
      ensures !isLoading
    {
      isLoading := true;
      match response {
        case Fail(error) =>
          result := Threw(error);
        case Ok(answer) =>
          if answer.success && answer.data.Some? {
            if saved.Fail? {
              result := Threw(saved.error);
            } else {
              token := Some(answer.data.value.token);
              user := Some(answer.data.value.user);
              result := Returned;
            }
          } else {
            result := Threw(RejectedAnswerError(answer, fallback));
          }
      }
      isLoading := false;
    }

    /** `login`. */
    method Login(response: Outcome<AuthResponse>, saved: Outcome<()>) returns (result: Completion)
      modifies this
      ensures Accepted(response) && saved.Ok? ==>
        result == Returned && user == Some(response.value.data.value.user) && token == Some(response.value.data.value.token)
      ensures !(Accepted(response) && saved.Ok?) ==> result.Threw? && user == old(user) && token == old(token)
      ensures response.Fail? ==> result == Threw(response.error)
      ensures response.Ok? && !Accepted(response) ==> result == Threw(RejectedAnswerError(response.value, "Login failed"))
      ensures Accepted(response) && saved.Fail? ==> result == Threw(saved.error)
      ensures Accepted(response) && saved.Ok? ==> (IsAuthenticated() <==> response.value.data.value.token != "")
      ensures !isLoading
    {
      result := Authenticate(response, saved, "Login failed");
    }

    /** `register`. */
    method Register(response: Outcome<AuthResponse>, saved: Outcome<()>) returns (result: Completion)
      modifies this
      ensures Accepted(response) && saved.Ok? ==>
        result == Returned && user == Some(response.value.data.value.user) && token == Some(response.value.data.value.token)
      ensures !(Accepted(response) && saved.Ok?) ==> result.Threw? && user == old(user) && token == old(token)
      ensures response.Fail? ==> result == Threw(response.error)
      ensures response.Ok? && !Accepted(response) ==> result == Threw(RejectedAnswerError(response.value, "Registration failed"))
      ensures Accepted(response) && saved.Fail? ==> result == Threw(saved.error)
      ensures Accepted(response) && saved.Ok? ==> (IsAuthenticated() <==> response.value.data.value.token != "")
      ensures !isLoading
    {
      result := Authenticate(response, saved, "Registration failed");
    }

    /** `updateOnlineStatus`: reported only while authenticated; on success the user record
        gets the flag and `now` (for `new Date().toISOString()`); failures are swallowed. */
    method UpdateOnlineStatus(isOnline: bool, reply: Outcome<()>, now: string) returns (reported: bool)
      modifies this`user
      ensures reported <==> old(IsAuthenticated())
      ensures reported && reply.Ok? ==> user == Some(old(user).value.(isOnline := Some(isOnline), lastSeen := Some(now)))
      ensures !(reported && reply.Ok?) ==> user == old(user)
    {
      reported := false;
      if IsAuthenticated() {
        reported := true;
        if reply.Ok? {
          user := if user.Some? then Some(user.value.(isOnline := Some(isOnline), lastSeen := Some(now))) else None;
        }
      }
    }

    /** `logout`: the session is cleared only after the remote logout succeeds; a failure
        is logged and leaves it signed in. Clearing storage cannot reject (each removal
        logs its own error), so it does not decide the outcome. */
    method Logout(remote: Outcome<()>)
      modifies this`user, this`token
      ensures remote.Ok? ==> user.None? && token.None? && !IsAuthenticated()
      ensures remote.Fail? ==> user == old(user) && token == old(token)
    {
      if remote.Fail? {
        return;
      }
      token := None;
      user := None;
    }
  }
}
