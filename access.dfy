/**
 * Who may use the screens. The user's profile lives in the `users` collection of the
 * document store; the role hook derives a role from it, the page guard signs out and
 * redirects a user without a profile, and the sign-in screen admits only a profile with a
 * role and then exchanges the identity token for the back end's tokens.
 *
 * Authentication and the profile lookup are inputs: whether a user is signed in, and what
 * the lookup of that user's profile gave.
 */
module Access {
  import opened Wrappers
  import opened Text
  import Rest

  /** The profile lookup: it failed with a message, there is no profile, or there is one whose `role` is
      the given text (an absent role is the empty text: both are falsy). */
  datatype Lookup = LookupFailed(message: string) | NoProfile | Profile(role: string)

  /** The role `useUserRole` derives for a signed-in user: the profile's role when it has
      one, 'user' otherwise, including when the lookup fails. */
  function RoleOf(lookup: Lookup): (role: string)
    ensures role != ""
    ensures lookup.Profile? && lookup.role != "" ==> role == lookup.role
    ensures !(lookup.Profile? && lookup.role != "") ==> role == "user"
  {
    if lookup.Profile? && lookup.role != "" then lookup.role else "user"
  }

  /** `useUserRole()`: the role, with `isLoading` until the first auth state arrives. */
  class UserRoleHook {
    var userRole: Option<string>
    var isLoading: bool

    constructor ()
      ensures userRole.None? && isLoading
    {
      userRole, isLoading := None, true;
    }

    /** The auth-state listener: no user, no role; a signed-in user gets the derived role.
        Loading ends on every path. */
    method OnAuthState(signedIn: bool, lookup: Lookup)
      modifies this
      ensures !isLoading
      ensures !signedIn ==> userRole.None?
      ensures signedIn ==> userRole == Some(RoleOf(lookup))
    {
      if !signedIn {
        userRole := None;
        isLoading := false;
        return;
      }
      userRole := Some(RoleOf(lookup));
      isLoading := false;
    }
  }

  /** What the page guard does, in order. */
  datatype Effect = ProfileLookup | SignOut | ToLogin

  /**
   * `useAuth()`'s listener. No user: straight to the login page, with no lookup. A
   * profile: nothing more, whatever its role. No profile: sign out and go to the login
   * page; a sign-out that throws lands in the error handler, which signs out again. A
   * failed lookup: the error handler. A sign-out that throws in the error handler ends
   * the listener before the redirect. `signOutOk(n)` says whether the n-th sign-out
   * succeeds.
   */
  function GuardEffects(signedIn: bool, lookup: Lookup, signOutOk: nat -> bool): (es: seq<Effect>)
    ensures !signedIn ==> es == [ToLogin]
    ensures signedIn ==> |es| >= 1 && es[0] == ProfileLookup
    ensures signedIn && lookup.Profile? ==> es == [ProfileLookup]
    ensures signedIn && !lookup.Profile? ==> SignOut in es
  {
    if !signedIn then [ToLogin]
    else match lookup
      case Profile(_) => [ProfileLookup]
      case NoProfile =>
        if signOutOk(0) then [ProfileLookup, SignOut, ToLogin]
        else [ProfileLookup, SignOut] + ErrorHandler(signOutOk, 1)
      case LookupFailed(_) => [ProfileLookup] + ErrorHandler(signOutOk, 0)
  }

  /** The guard's error handler, with the n-th sign-out. */
  function ErrorHandler(signOutOk: nat -> bool, n: nat): (es: seq<Effect>)
    ensures es == (if signOutOk(n) then [SignOut, ToLogin] else [SignOut])
  {
    if signOutOk(n) then [SignOut, ToLogin] else [SignOut]
  }

  /** A user who reaches the login page through the guard without a profile has been
      signed out first; a user with a profile is never sent away. */
  lemma GuardSignsOutBeforeRedirect(signedIn: bool, lookup: Lookup, signOutOk: nat -> bool)
    ensures var es := GuardEffects(signedIn, lookup, signOutOk);
      && (signedIn && ToLogin in es ==> exists i, j :: 0 <= i < j < |es| && es[i] == SignOut && es[j] == ToLogin)
      && (signedIn && lookup.Profile? ==> ToLogin !in es && SignOut !in es)
      && (signedIn && !lookup.Profile? && (forall n :: signOutOk(n)) ==> es[|es| - 1] == ToLogin)
  {
    var es := GuardEffects(signedIn, lookup, signOutOk);
    if signedIn && ToLogin in es {
      match lookup
      case Profile(_) =>
      case NoProfile =>
        if signOutOk(0) {
          assert es[1] == SignOut && es[2] == ToLogin;
        } else {
          assert es[2] == SignOut && es[3] == ToLogin;
        }
      case LookupFailed(_) =>
        assert es[1] == SignOut && es[2] == ToLogin;
    }
  }

  /** The page guard: the effects it has carried out. */
  class AuthGuard {
    var effects: seq<Effect>

    constructor ()
      ensures effects == []
    {
      effects := [];
    }

    method OnAuthState(signedIn: bool, lookup: Lookup, signOutOk: nat -> bool)
      modifies this
      ensures effects == old(effects) + GuardEffects(signedIn, lookup, signOutOk)
    {
      if !signedIn {
        effects := effects + [ToLogin];
        return;
      }
      effects := effects + [ProfileLookup];
      match lookup {
        case Profile(_) =>
        case NoProfile =>
          effects := effects + [SignOut];
          if signOutOk(0) {
            effects := effects + [ToLogin];
          } else {
            effects := effects + ErrorHandler(signOutOk, 1);
          }
        case LookupFailed(_) =>
          effects := effects + ErrorHandler(signOutOk, 0);
      }
    }
  }

  /** The popup sign-in. */
  datatype Popup = PopupFailed(message: string) | SignedIn

  /** The identity-token exchange: a failure before any response (the token could not be
      obtained, or the request itself threw), or the back end's response with its status
      and tokens. */
  datatype TokenExchange = ExchangeFailed(message: string) | Answered(status: nat, access: string, refresh: string)

  /** `axios.post` resolves only on a 2xx status: any other response is thrown as an error
      with this message. */
  function RejectedStatus(status: nat): (m: string)
    ensures |m| > 32 && m[..32] == "Request failed with status code "
    ensures AllDigits(m[32..]) && DigitsValue(m[32..]) == status
  {
    var p := "Request failed with status code ";
    var m := p + NatText(status);
    assert m[..32] == p && m[32..] == NatText(status);
    m
  }

  /** How a sign-in ends. */
  datatype SignInResult = AccountNotFound | NoRole | Admitted | NotAdmitted | SignInFailed(message: string)

  /** `signInWithGoogle()` in order: the popup, the profile lookup, the role, the exchange.
      Only a status of exactly 200 admits; another 2xx status ends the flow silently, and
      any status outside 2xx fails it with the rejection's message. */
  function SignInOutcome(popup: Popup, lookup: Lookup, exchange: TokenExchange): (r: SignInResult)
    ensures r == Admitted <==> (popup.SignedIn? && lookup.Profile? && lookup.role != ""
                                && exchange.Answered? && exchange.status == 200)
    ensures popup.SignedIn? && lookup.NoProfile? ==> r == AccountNotFound
    ensures popup.SignedIn? && lookup.Profile? && lookup.role == "" ==> r == NoRole
    ensures r == NotAdmitted <==> (popup.SignedIn? && lookup.Profile? && lookup.role != ""
                                   && exchange.Answered? && Rest.Ok(exchange.status) && exchange.status != 200)
    ensures (popup.SignedIn? && lookup.Profile? && lookup.role != "" && exchange.Answered? && !Rest.Ok(exchange.status)) ==>
      r == SignInFailed(RejectedStatus(exchange.status))
  {
    if popup.PopupFailed? then SignInFailed(popup.message)
    else match lookup
      case LookupFailed(m) => SignInFailed(m)
      case NoProfile => AccountNotFound
      case Profile(role) =>
        if role == "" then NoRole
        else match exchange
          case ExchangeFailed(m) => SignInFailed(m)
          case Answered(status, _, _) =>
            if !Rest.Ok(status) then SignInFailed(RejectedStatus(status))
            else if status == 200 then Admitted
            else NotAdmitted
  }

  /** The guard lets a profile without a role through, while the sign-in screen refuses
      it: the role is checked at sign-in only. */
  lemma RolelessProfileAdmittedByGuard(signOutOk: nat -> bool, exchange: TokenExchange)
    ensures GuardEffects(true, Profile(""), signOutOk) == [ProfileLookup]
    ensures SignInOutcome(SignedIn, Profile(""), exchange) == NoRole
  {
  }

  class SignInScreen {
    var isLoading: bool
    var access: Option<string>
    var refresh: Option<string>
    var navigated: bool

    constructor ()
      ensures !isLoading && access.None? && refresh.None? && !navigated
    {
      isLoading, access, refresh, navigated := false, None, None, false;
    }

    /** `signInWithGoogle()`: the tokens are stored and the home page opened only on an
        admitted sign-in; every other path leaves them as they were. `isLoading` ends false
        on every path. */
    method SignInWithGoogle(popup: Popup, lookup: Lookup, exchange: TokenExchange) returns (r: SignInResult)
      modifies this
      ensures r == SignInOutcome(popup, lookup, exchange) && !isLoading
      ensures r == Admitted ==> access == Some(exchange.access) && refresh == Some(exchange.refresh) && navigated
      ensures r != Admitted ==> access == old(access) && refresh == old(refresh) && navigated == old(navigated)
    {
      isLoading := true;
      if popup.PopupFailed? {
        r := SignInFailed(popup.message);
      } else if lookup.LookupFailed? {
        r := SignInFailed(lookup.message);
      } else if lookup.NoProfile? {
        isLoading := false;
        return AccountNotFound;
      } else if lookup.role == "" {
        isLoading := false;
        return NoRole;
      } else if exchange.ExchangeFailed? {
        r := SignInFailed(exchange.message);
      } else if !Rest.Ok(exchange.status) {
        r := SignInFailed(RejectedStatus(exchange.status));
      } else if exchange.status == 200 {
        access := Some(exchange.access);
        refresh := Some(exchange.refresh);
        navigated := true;
        r := Admitted;
      } else {
        r := NotAdmitted;
      }
      isLoading := false;
    }
  }
}
