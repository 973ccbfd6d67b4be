/**
 * The process-wide session holder: optional tokens, the signed-in user and
 * login flags, written by setters and read through derived getters.
 *
 * The five token and flag fields are persisted in the device's key-value
 * store; the store itself is not modelled, so the values it holds when the
 * holder is created are the constructor's parameters.
 */
module Session {
  import opened Wrappers

  /** The signed-in user; only the identifier is kept. */
  datatype User = User(id: string)

  /** Every field of the holder at one moment, to state what a setter leaves alone. */
  datatype SessionState = SessionState(
    currentUser: Option<User>,
    currentLoginStatus: Option<bool>,
    socialToken: Option<string>,
    accessToken: Option<string>,
    refreshToken: Option<string>,
    userIdentifier: Option<string>,
    isAppleLogin: Option<bool>)

  class UserManager {
    var currentUser: Option<User>
    var currentLoginStatus: Option<bool>
    var socialToken: Option<string>
    var accessToken: Option<string>
    var refreshToken: Option<string>
    var userIdentifier: Option<string>
    var isAppleLogin: Option<bool>

    function Snapshot(): SessionState
      reads this
    {
      SessionState(currentUser, currentLoginStatus, socialToken, accessToken,
                   refreshToken, userIdentifier, isAppleLogin)
    }

    /** The holder as created: the persisted fields as stored, no user and no login status yet. */
    constructor (storedSocialToken: Option<string>, storedAccessToken: Option<string>,
                 storedRefreshToken: Option<string>, storedUserIdentifier: Option<string>,
                 storedIsAppleLogin: Option<bool>)
      ensures Snapshot() == SessionState(None, None, storedSocialToken, storedAccessToken,
                                         storedRefreshToken, storedUserIdentifier, storedIsAppleLogin)
      ensures !IsLogin()
    {
      currentUser := None;
      currentLoginStatus := None;
      socialToken := storedSocialToken;
      accessToken := storedAccessToken;
      refreshToken := storedRefreshToken;
      userIdentifier := storedUserIdentifier;
      isAppleLogin := storedIsAppleLogin;
    }

    function HasAccessToken(): (b: bool)
      reads this
      ensures b <==> accessToken != None
    {
      accessToken.Some?
    }

    function HasRefreshToken(): (b: bool)
      reads this
      ensures b <==> refreshToken != None
    {
      refreshToken.Some?
    }

    /** Force-unwraps the stored social type: defined only once it has been set. */
    function IsAppleLoginned(): (b: bool)
      reads this
      requires isAppleLogin.Some?
      ensures isAppleLogin == Some(b)
    {
      isAppleLogin.value
    }

    /** Logged in only when a login status has been recorded and it is true. */
    function IsLogin(): (b: bool)
      reads this
      ensures b <==> currentLoginStatus == Some(true)
    {
      currentLoginStatus.GetOr(false)
    }

    function GetSocialToken(): (token: string)
      reads this
      ensures socialToken == Some(token) || (socialToken == None && token == "")
    {
      socialToken.GetOr("")
    }

    function GetAccessToken(): (token: string)
      reads this
      ensures accessToken == Some(token) || (accessToken == None && token == "")
    {
      accessToken.GetOr("")
    }

    method UpdateAuthToken(newAccessToken: string, newRefreshToken: string)
      modifies this
      ensures Snapshot() == old(Snapshot()).(accessToken := Some(newAccessToken),
                                              refreshToken := Some(newRefreshToken))
      ensures HasAccessToken() && HasRefreshToken()
      ensures GetAccessToken() == newAccessToken
    {
      accessToken := Some(newAccessToken);
      refreshToken := Some(newRefreshToken);
    }

    method SetCurrentUser(user: User)
      modifies this
      ensures Snapshot() == old(Snapshot()).(currentUser := Some(user))
    {
      currentUser := Some(user);
    }

    method SetLoginStatus(isLoginned: bool)
      modifies this
      ensures Snapshot() == old(Snapshot()).(currentLoginStatus := Some(isLoginned))
      ensures IsLogin() == isLoginned
    {
      currentLoginStatus := Some(isLoginned);
    }

    method SetSocialType(appleLogin: bool)
      modifies this
      ensures Snapshot() == old(Snapshot()).(isAppleLogin := Some(appleLogin))
      ensures IsAppleLoginned() == appleLogin
    {
      isAppleLogin := Some(appleLogin);
    }

    method SetUserId(userId: string)
      modifies this
      ensures Snapshot() == old(Snapshot()).(userIdentifier := Some(userId))
    {
      userIdentifier := Some(userId);
    }

    method SetSocialToken(token: string)
      modifies this
      ensures Snapshot() == old(Snapshot()).(socialToken := Some(token))
      ensures GetSocialToken() == token
    {
      socialToken := Some(token);
    }

    /** Forgets the tokens and the user; the social token, identifier and login flags stay. */
    method ClearUserInform()
      modifies this
      ensures Snapshot() == old(Snapshot()).(accessToken := None, refreshToken := None, currentUser := None)
      ensures !HasAccessToken() && !HasRefreshToken() && GetAccessToken() == ""
      ensures IsLogin() == old(IsLogin())
    {
      accessToken := None;
      refreshToken := None;
      currentUser := None;
    }

    /** Checks that both tokens are present and then does nothing: no request is made. */
    method ReissuanceAccessToken()
      ensures Snapshot() == old(Snapshot())
    {
      if accessToken.None? {
        return;
      }
      if refreshToken.None? {
        return;
      }
    }
  }

  /**
   * A session that logs in and is then cleared still reports itself logged
   * in, now without an access token.
   */
  method LoginSurvivesClear(token: string, refresh: string) returns (loggedIn: bool, hasToken: bool)
    ensures loggedIn && !hasToken
  {
    var manager := new UserManager(None, None, None, None, None);
    manager.UpdateAuthToken(token, refresh);
    manager.SetLoginStatus(true);
    manager.ClearUserInform();
    loggedIn := manager.IsLogin();
    hasToken := manager.HasAccessToken();
  }
}
