/**
  The authentication effects: what the application does with a reply from the
  identity provider (Firebase Identity Toolkit), how it saves and restores the
  session in browser storage under the key "userData", and what logout undoes.
  The HTTP requests, the reactive-stream plumbing and router navigation are not
  modelled; the clock is the parameter `now` in milliseconds.
 */
module AuthEffects {
  import opened Wrappers
  import opened UserModel

  const UnknownErrorMessage: string := "An unknown error occurred"
  const EmailExistsMessage: string := "This email exists already"
  const EmailNotFoundMessage: string := "This email does not exist"
  const InvalidPasswordMessage: string := "This password is not correct"

  /** The provider's error object, `errorRes.error.error`: its `message` is the error code. */
  datatype ProviderError = ProviderError(message: Option<string>)

  /** The response body, `errorRes.error`; absent for a transport failure. */
  datatype ErrorBody = ErrorBody(error: Option<ProviderError>)

  /** An HTTP error response as handed to the error handler. */
  datatype ErrorResponse = ErrorResponse(error: Option<ErrorBody>)

  /** A successful reply (`AuthResponseData`), with `expiresIn` already coerced to a number of seconds. */
  datatype AuthResponseData = AuthResponseData(
    idToken: string, email: string, refreshToken: string, expiresIn: nat, localId: string,
    registered: Option<bool>)

  /** What a signup or login request came back with. */
  datatype AuthReply = Received(data: AuthResponseData) | Rejected(errorRes: ErrorResponse)

  /** The actions the effects dispatch; `Dummy` is the `{ type: 'DUMMY' }` no-op. */
  datatype Action =
    | AuthenticateSuccess(email: string, userId: string, token: string, expirationDate: int)
    | AuthenticateFail(message: string)
    | Dummy

  /** The record kept under "userData": the serialised fields of a `User` whose expiration is set. */
  datatype StoredUser = StoredUser(email: string, id: string, token: string, tokenExpirationDate: int)

  /**
    The record an authentication at `now` saves: the user's e-mail, id and
    token, expiring `expiresIn` seconds later.
   */
  function SessionRecord(expiresIn: nat, email: string, userId: string, token: string, now: int): StoredUser
  {
    StoredUser(email, userId, token, now + expiresIn * 1000)
  }

  /** A call the effects make on the logout timer of the authentication service. */
  datatype TimerCall = SetLogoutTimer(duration: int) | ClearLogoutTimer

  /** The provider's error code, present only when both nested error objects are. */
  function ErrorCode(errorRes: ErrorResponse): (code: Option<string>)
  {
    if errorRes.error.Some? && errorRes.error.value.error.Some? then errorRes.error.value.error.value.message
    else None
  }

  /**
    `handleError`: turns an error response into a failure action. Each of the
    three known codes has its own message, and every other outcome (a missing
    body, a missing provider error, a missing or unknown code) the unknown one.
   */
  function HandleError(errorRes: ErrorResponse): (r: Action)
    ensures r.AuthenticateFail?
    ensures errorRes.error.None? || errorRes.error.value.error.None? ==> r.message == UnknownErrorMessage
    ensures r.message == EmailExistsMessage <==> ErrorCode(errorRes) == Some("EMAIL_EXISTS")
    ensures r.message == EmailNotFoundMessage <==> ErrorCode(errorRes) == Some("EMAIL_NOT_FOUND")
    ensures r.message == InvalidPasswordMessage <==> ErrorCode(errorRes) == Some("INVALID_PASSWORD")
    ensures r.message == UnknownErrorMessage <==>
      ErrorCode(errorRes) !in {Some("EMAIL_EXISTS"), Some("EMAIL_NOT_FOUND"), Some("INVALID_PASSWORD")}
  {
    if errorRes.error.None? || errorRes.error.value.error.None? then
      AuthenticateFail(UnknownErrorMessage)
    else
      var code := errorRes.error.value.error.value.message;
      var errorMessage :=
        if code == Some("EMAIL_EXISTS") then EmailExistsMessage
        else if code == Some("EMAIL_NOT_FOUND") then EmailNotFoundMessage
        else if code == Some("INVALID_PASSWORD") then InvalidPasswordMessage
        else UnknownErrorMessage;
      AuthenticateFail(errorMessage)
  }

  /**
    The decision inside `autoLogin`: no record gives the no-op; otherwise the
    record is loaded as a `User`, and a token the getter still returns (and
    that is not the empty, falsy string) restores the session with the
    record's own fields. An expired record gives the no-op as well.
   */
  function Restore(userData: Option<StoredUser>, now: int): (r: Action)
    ensures userData.None? ==> r == Dummy
    ensures !r.AuthenticateFail?
    ensures r.AuthenticateSuccess? <==>
      userData.Some? && now <= userData.value.tokenExpirationDate && userData.value.token != ""
    ensures r.AuthenticateSuccess? ==>
      r.email == userData.value.email && r.userId == userData.value.id &&
      r.token == userData.value.token && r.expirationDate == userData.value.tokenExpirationDate
  {
    match userData
    case None => Dummy
    case Some(record) =>
      var loadedUser := User(record.email, record.id, record.token, Some(record.tokenExpirationDate));
      var token := loadedUser.Token(now);
      if token.Some? && token.value != "" then
        AuthenticateSuccess(loadedUser.email, loadedUser.id, token.value, record.tokenExpirationDate)
      else
        Dummy
  }

  /**
    Round trip: the record an authentication at `savedAt` writes, restored at
    any instant up to its expiration, gives back the same e-mail, id, token and
    expiration date as the authentication reported.
   */
  lemma RestoreAfterAuthentication(expiresIn: nat, email: string, userId: string, token: string, savedAt: int, now: int)
    requires now <= savedAt + expiresIn * 1000
    requires token != ""
    ensures Restore(Some(SessionRecord(expiresIn, email, userId, token, savedAt)), now)
         == AuthenticateSuccess(email, userId, token, savedAt + expiresIn * 1000)
  {
  }

  /** Restoring after the expiration instant is the no-op, whatever the record holds. */
  lemma RestoreAfterExpiration(record: StoredUser, now: int)
    requires now > record.tokenExpirationDate
    ensures Restore(Some(record), now) == Dummy
  {
  }

  /**
    The state the effects change outside themselves: the browser storage entry
    "userData" and the calls made on the authentication service's logout timer.
   */
  class AuthState {
    var userData: Option<StoredUser>
    var timerCalls: seq<TimerCall>

    /** Starts with whatever an earlier run left in storage and no timer calls yet. */
    constructor(stored: Option<StoredUser>)
      ensures userData == stored && timerCalls == []
    {
      userData := stored;
      timerCalls := [];
    }

    /**
      `handleAuthentication`: the session expires `expiresIn` seconds after
      `now`; the user is saved under "userData" and reported with the same four
      values. The timer is not touched here.
     */
    method HandleAuthentication(expiresIn: nat, email: string, userId: string, token: string, now: int)
      returns (a: Action)
      modifies this`userData
      ensures userData == Some(SessionRecord(expiresIn, email, userId, token, now))
      ensures a == AuthenticateSuccess(email, userId, token, now + expiresIn * 1000)
      ensures timerCalls == old(timerCalls)
    {
      var expirationDate := now + expiresIn * 1000;
      var user := User(email, userId, token, Some(expirationDate));
      userData := Some(StoredUser(user.email, user.id, user.storedToken, expirationDate));
      a := AuthenticateSuccess(email, userId, token, expirationDate);
    }

    /**
      What the signup and login effects do once the request has answered. A
      reply arms the logout timer for exactly the session's lifetime and then
      authenticates; an error response dispatches the mapped failure and
      changes nothing.
     */
    method CompleteAuthRequest(reply: AuthReply, now: int) returns (a: Action)
      modifies this
      ensures reply.Received? ==>
        var d := reply.data;
        && timerCalls == old(timerCalls) + [SetLogoutTimer(d.expiresIn * 1000)]
        && userData == Some(SessionRecord(d.expiresIn, d.email, d.localId, d.idToken, now))
        && a == AuthenticateSuccess(d.email, d.localId, d.idToken, now + d.expiresIn * 1000)
        && timerCalls[|timerCalls| - 1].duration == a.expirationDate - now
      ensures reply.Rejected? ==>
        a == HandleError(reply.errorRes) && userData == old(userData) && timerCalls == old(timerCalls)
    {
      match reply
      case Received(resData) =>
        timerCalls := timerCalls + [SetLogoutTimer(resData.expiresIn * 1000)];
        a := HandleAuthentication(resData.expiresIn, resData.email, resData.localId, resData.idToken, now);
      case Rejected(errorRes) =>
        a := HandleError(errorRes);
    }

    /**
      The `autoLogin` effect: restores the saved session when there is one and
      it is still valid, and otherwise dispatches the no-op. It changes
      neither storage (an expired record stays) nor the timer. On success the
      remaining lifetime it computes is never negative.
     */
    method AutoLogin(now: int) returns (a: Action, expirationDuration: int)
      ensures a == Restore(userData, now)
      ensures a.AuthenticateSuccess? ==> expirationDuration == a.expirationDate - now >= 0
    {
      expirationDuration := 0;
      a := Restore(userData, now);
      if a.AuthenticateSuccess? {
        expirationDuration := a.expirationDate - now;
      }
    }

    /**
      The `authLogout` effect: clears the logout timer and removes the saved
      session. Its outcome on storage does not depend on the state before, so
      a second logout leaves storage as the first did.
     */
    method Logout()
      modifies this
      ensures userData == None
      ensures timerCalls == old(timerCalls) + [ClearLogoutTimer]
    {
      timerCalls := timerCalls + [ClearLogoutTimer];
      userData := None;
    }
  }
}
