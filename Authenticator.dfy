/**
  HomeIdpDiscoveryAuthenticator: the login-flow step around discovery. On
  `authenticate` it may skip the username form by reusing a login hint; on
  `action` it reads the submitted username. Either way the discovered IdPs
  lead to a redirect (one IdP with a known username, or always when
  forwarding to the first match), a chooser, or the plain username form.

  The flow context and session the Java code writes to are modelled by the
  fields of `Authenticator`: the authentication-session notes, the stored
  login hint, the username handed to remember-me, the form handed to
  remember-me, and the flow outcome.
 */
module HomeIdpDiscoveryAuthenticator {
  import opened Wrappers
  import opened JavaStrings
  import opened Keycloak
  import opened EmailHomeIdpDiscoverer

  /** Auth note under which the attempted username is kept. */
  const ATTEMPTED_USERNAME := "ATTEMPTED_USERNAME"
  /** Form field holding the typed username. */
  const FORM_USERNAME := "username"
  /** Form field whose presence cancels the login. */
  const CANCEL := "cancel"

  /**
    `trimToNull`: null stays null, a string that trims to "" becomes null,
    anything else becomes its trimmed form.
   */
  function TrimToNull(s: Option<string>): (r: Option<string>)
    ensures s.None? ==> r.None?
    ensures s.Some? ==> (r.None? <==> forall i :: 0 <= i < |s.value| ==> IsTrimmable(s.value[i]))
    ensures r.Some? ==> r.value == Trim(s.value)
    ensures r.Some? ==> r.value != "" && IsTrimmed(r.value)
  {
    if s.None? then None
    else
      var t := Trim(s.value);
      TrimEmptyIffAllTrimmable(s.value);
      EqualsIgnoreCaseEmpty(t);
      if EqualsIgnoreCase("", t) then None else Some(t)
  }

  /** Applying `trimToNull` to its own result changes nothing. */
  lemma TrimToNullIdempotent(s: Option<string>)
    ensures TrimToNull(TrimToNull(s)) == TrimToNull(s)
  {
    if TrimToNull(s).Some? {
      TrimOfTrimmed(TrimToNull(s).value);
    }
  }

  /**
    `usernameHint`: the login hint of the session if it is usable, else the
    attempted username recorded earlier; either way trimmed and non-empty.
   */
  function UsernameHint(sessionLoginHint: Option<string>, attemptedUsername: Option<string>): (r: Option<string>)
    ensures r.Some? ==> r.value != "" && IsTrimmed(r.value)
    ensures TrimToNull(sessionLoginHint).Some? ==> r == TrimToNull(sessionLoginHint)
    ensures TrimToNull(sessionLoginHint).None? ==> r == TrimToNull(attemptedUsername)
    ensures r.None? <==> TrimToNull(sessionLoginHint).None? && TrimToNull(attemptedUsername).None?
  {
    var hint := TrimToNull(sessionLoginHint);
    if hint.None? then TrimToNull(attemptedUsername) else hint
  }

  /**
    The decision of `redirectOrChallenge`: redirect to the first IdP exactly
    when there is one IdP and a username is known, or when forwarding to the
    first match is configured; `None` means the chooser is shown.
   */
  function RedirectTarget(homeIdps: seq<IdentityProvider>, username: string, forwardToFirstMatch: bool)
    : (r: Option<IdentityProvider>)
    requires forwardToFirstMatch ==> homeIdps != []
    ensures r.Some? <==> (|homeIdps| == 1 && username != "") || forwardToFirstMatch
    ensures r.Some? ==> r.value == homeIdps[0] && r.value in homeIdps
  {
    if (|homeIdps| == 1 && username != "") || forwardToFirstMatch then Some(homeIdps[0]) else None
  }

  /** What `loginHint().setInAuthSession` stored: the username, with the IdP it is meant for. */
  datatype LoginHint = LoginHint(idp: Option<IdentityProvider>, username: string)

  /** The decoded form parameters of an `action` request. */
  datatype FormData = FormData(fields: map<string, seq<string>>) {
    /** `MultivaluedMap.getFirst`: null when the key is absent or has no value. */
    function GetFirst(key: string): Option<string> {
      if key in fields && fields[key] != [] then Some(fields[key][0]) else None
    }
  }

  /** How the flow step ended. */
  datatype Outcome =
    | Undecided
      /** `forceChallenge()`: the username form, no IdPs offered. */
    | PlainChallenge
      /** `failureChallenge(INVALID_USER, ...)`: the form again, with an error on the username field. */
    | FailureChallenge
      /** `redirector().redirectTo(idp)`. */
    | Redirect(idp: IdentityProvider)
      /** `forceChallenge(homeIdps)`: the chooser. */
    | Chooser(idps: seq<IdentityProvider>)
      /** `attempted()`: the flow moves on to the next authenticator. */
    | Attempted
      /** `cancelLogin()`. */
    | Cancelled

  /** The username `action` tries: the flow user's on re-authentication, else the form's. */
  function TryUsername(form: FormData, reauthenticationRequired: bool, flowUser: Option<User>): (r: Option<string>)
    ensures reauthenticationRequired && flowUser.Some? ==> r == Some(flowUser.value.username)
    ensures !(reauthenticationRequired && flowUser.Some?) ==>
              (r.Some? <==> FORM_USERNAME in form.fields && form.fields[FORM_USERNAME] != [])
              && (r.Some? ==> r.value == form.fields[FORM_USERNAME][0])
  {
    if reauthenticationRequired && flowUser.Some? then Some(flowUser.value.username)
    else form.GetFirst(FORM_USERNAME)
  }

  class Authenticator {
    /** The discoverer's configuration and collaborators for this request. */
    const ctx: Context
    /** Notes of the authentication session. */
    var authNotes: map<string, string>
    /** The login hint stored in the authentication session. */
    var loginHint: Option<LoginHint>
    /** The last username handed to remember-me. */
    var remembered: Option<string>
    /** The form handed to remember-me's `handleAction`. */
    var rememberMeForm: Option<FormData>
    /** How the current step ended. */
    var outcome: Outcome

    constructor (ctx: Context, authNotes: map<string, string>)
      ensures this.ctx == ctx && this.authNotes == authNotes
      ensures loginHint.None? && remembered.None? && rememberMeForm.None? && outcome == Undecided
    {
      this.ctx := ctx;
      this.authNotes := authNotes;
      loginHint, remembered, rememberMeForm, outcome := None, None, None, Undecided;
    }

    /** The ATTEMPTED_USERNAME note, null when absent. */
    function AttemptedUsername(): Option<string>
      reads this
    {
      if ATTEMPTED_USERNAME in authNotes then Some(authNotes[ATTEMPTED_USERNAME]) else None
    }

    /**
      `setUserInContext`: a missing or blank username ends in a failure
      challenge and records nothing; otherwise the trimmed username becomes
      the ATTEMPTED_USERNAME note and is returned.
     */
    method SetUserInContext(username: Option<string>) returns (r: Option<string>)
      modifies this
      ensures r == TrimToNull(username)
      ensures r.None? ==> outcome == FailureChallenge && authNotes == old(authNotes)
      ensures r.Some? ==> outcome == old(outcome) && authNotes == old(authNotes)[ATTEMPTED_USERNAME := r.value]
      ensures loginHint == old(loginHint) && remembered == old(remembered) && rememberMeForm == old(rememberMeForm)
    {
      r := TrimToNull(username);
      if r.None? {
        outcome := FailureChallenge;
        return;
      }
      authNotes := authNotes[ATTEMPTED_USERNAME := r.value];
    }

    /**
      `redirectOrChallenge`: redirect to the first IdP (storing the login
      hint for it when a username is known) or show the chooser with the
      list unchanged.
     */
    method RedirectOrChallenge(username: string, homeIdps: seq<IdentityProvider>)
      requires ctx.config.forwardToFirstMatch ==> homeIdps != []
      modifies this
      ensures var redirect := (|homeIdps| == 1 && username != "") || ctx.config.forwardToFirstMatch;
              && outcome == (if redirect then Redirect(homeIdps[0]) else Chooser(homeIdps))
              && loginHint == (if redirect && username != "" then Some(LoginHint(Some(homeIdps[0]), username))
                               else old(loginHint))
      ensures authNotes == old(authNotes) && remembered == old(remembered) && rememberMeForm == old(rememberMeForm)
    {
      var target := RedirectTarget(homeIdps, username, ctx.config.forwardToFirstMatch);
      if target.Some? {
        if username != "" {
          loginHint := Some(LoginHint(Some(target.value), username));
        }
        outcome := Redirect(target.value);
      } else {
        outcome := Chooser(homeIdps);
      }
    }

    /**
      The standard-mode branch of `authenticate`, for a username hint: record
      the hint, discover, and only when IdPs are found remember the user and
      decide. `done` tells whether the branch ended the step.
     */
    method AuthenticateWithHint(hint: string) returns (done: bool)
      requires hint != "" && IsTrimmed(hint)
      modifies this
      ensures rememberMeForm == old(rememberMeForm)
      ensures authNotes == old(authNotes)[ATTEMPTED_USERNAME := hint]
      ensures var idps := DiscoverForUser(ctx, hint);
              var redirect := |idps| == 1 || ctx.config.forwardToFirstMatch;
              && done == (idps != [])
              && (!done ==> outcome == old(outcome) && loginHint == old(loginHint) && remembered == old(remembered))
              && (done ==>
                    && remembered == Some(hint)
                    && outcome == (if redirect then Redirect(idps[0]) else Chooser(idps))
                    && loginHint == (if redirect then Some(LoginHint(Some(idps[0]), hint)) else old(loginHint)))
    {
      TrimOfTrimmed(hint);
      var username := SetUserInContext(Some(hint));
      var homeIdps := DiscoverForUser(ctx, username.value);
      done := homeIdps != [];
      if done {
        remembered := username;
        RedirectOrChallenge(username.value, homeIdps);
      }
    }

    /**
      The override-mode branch of `authenticate`: a hint is recorded and
      remembered before discovery; without one, discovery runs for "". The
      decision is taken with an empty username, so a match redirects only
      when forwarding to the first match.
     */
    method AuthenticateOverride(hint: Option<string>) returns (done: bool)
      requires hint.Some? ==> hint.value != "" && IsTrimmed(hint.value)
      modifies this
      ensures rememberMeForm == old(rememberMeForm) && loginHint == old(loginHint)
      ensures authNotes == (if hint.Some? then old(authNotes)[ATTEMPTED_USERNAME := hint.value] else old(authNotes))
      ensures remembered == (if hint.Some? then hint else old(remembered))
      ensures var idps := DiscoverForUser(ctx, if hint.Some? then hint.value else "");
              && done == (idps != [])
              && (!done ==> outcome == old(outcome))
              && (done ==> outcome == (if ctx.config.forwardToFirstMatch then Redirect(idps[0]) else Chooser(idps)))
    {
      var homeIdps;
      if hint.Some? {
        TrimOfTrimmed(hint.value);
        var username := SetUserInContext(hint);
        remembered := username;
        homeIdps := DiscoverForUser(ctx, username.value);
      } else {
        homeIdps := DiscoverForUser(ctx, "");
      }
      done := homeIdps != [];
      if done {
        RedirectOrChallenge("", homeIdps);
      }
    }

    /**
      `authenticate`: when the login page may be bypassed, use the username
      hint to discover home IdPs and redirect or offer a chooser; otherwise,
      or when nothing is found, show the plain username form.
     */
    method Authenticate(bypassLoginPage: bool, sessionLoginHint: Option<string>)
      modifies this
      ensures rememberMeForm == old(rememberMeForm)
      // No bypass, or standard mode without a hint: the plain form, nothing recorded.
      ensures var hint := UsernameHint(sessionLoginHint, old(AttemptedUsername()));
              (!bypassLoginPage || (!IsEpicon(ctx.config) && hint.None?)) ==>
                && outcome == PlainChallenge
                && authNotes == old(authNotes) && loginHint == old(loginHint) && remembered == old(remembered)
      // Standard mode with a hint: record it, discover, and only with a result remember and decide.
      ensures var hint := UsernameHint(sessionLoginHint, old(AttemptedUsername()));
              bypassLoginPage && !IsEpicon(ctx.config) && hint.Some? ==>
                var idps := DiscoverForUser(ctx, hint.value);
                var redirect := |idps| == 1 || ctx.config.forwardToFirstMatch;
                && authNotes == old(authNotes)[ATTEMPTED_USERNAME := hint.value]
                && (idps == [] ==>
                      outcome == PlainChallenge && loginHint == old(loginHint) && remembered == old(remembered))
                && (idps != [] ==>
                      && remembered == hint
                      && outcome == (if redirect then Redirect(idps[0]) else Chooser(idps))
                      && loginHint == (if redirect then Some(LoginHint(Some(idps[0]), hint.value)) else old(loginHint)))
      // Override mode: a hint is recorded and remembered before discovery; the decision is made
      // with an empty username, so a match redirects only when forwarding to the first match.
      ensures var hint := UsernameHint(sessionLoginHint, old(AttemptedUsername()));
              bypassLoginPage && IsEpicon(ctx.config) ==>
                var idps := DiscoverForUser(ctx, if hint.Some? then hint.value else "");
                && authNotes == (if hint.Some? then old(authNotes)[ATTEMPTED_USERNAME := hint.value] else old(authNotes))
                && remembered == (if hint.Some? then hint else old(remembered))
                && loginHint == old(loginHint)
                && outcome == (if idps == [] then PlainChallenge
                               else if ctx.config.forwardToFirstMatch then Redirect(idps[0])
                               else Chooser(idps))
    {
      if bypassLoginPage {
        var hint := UsernameHint(sessionLoginHint, AttemptedUsername());
        if hint.Some? && !IsEpicon(ctx.config) {
          var done := AuthenticateWithHint(hint.value);
          if done {
            return;
          }
        } else if IsEpicon(ctx.config) {
          var done := AuthenticateOverride(hint);
          if done {
            return;
          }
        }
      }
      outcome := PlainChallenge;
    }

    /**
      The part of `action` after a username is known: discover for it; with
      no IdPs let the flow move on, storing the username as login hint;
      otherwise hand the form to remember-me, remember the user and decide.
     */
    method ActionForUser(form: FormData, username: string)
      requires username != ""
      modifies this
      ensures authNotes == old(authNotes)
      ensures var idps := DiscoverForUser(ctx, username);
              var redirect := |idps| == 1 || ctx.config.forwardToFirstMatch;
              && (idps == [] ==>
                    && outcome == Attempted
                    && loginHint == Some(LoginHint(None, username))
                    && remembered == old(remembered) && rememberMeForm == old(rememberMeForm))
              && (idps != [] ==>
                    && rememberMeForm == Some(form) && remembered == Some(username)
                    && outcome == (if redirect then Redirect(idps[0]) else Chooser(idps))
                    && loginHint == (if redirect then Some(LoginHint(Some(idps[0]), username)) else old(loginHint)))
    {
      var homeIdps := DiscoverForUser(ctx, username);
      if homeIdps == [] {
        outcome := Attempted;
        loginHint := Some(LoginHint(None, username));
      } else {
        rememberMeForm := Some(form);
        remembered := Some(username);
        RedirectOrChallenge(username, homeIdps);
      }
    }

    /**
      `action`: a cancel cancels; a missing username fails; otherwise
      discover for the submitted username, and either let the flow move on
      (storing the username as login hint) or remember the user and
      redirect or offer a chooser.
     */
    method Action(form: FormData, reauthenticationRequired: bool, flowUser: Option<User>)
      modifies this
      ensures CANCEL in form.fields ==>
                && outcome == Cancelled
                && authNotes == old(authNotes) && loginHint == old(loginHint)
                && remembered == old(remembered) && rememberMeForm == old(rememberMeForm)
      ensures var username := TrimToNull(TryUsername(form, reauthenticationRequired, flowUser));
              CANCEL !in form.fields && username.None? ==>
                && outcome == FailureChallenge
                && authNotes == old(authNotes) && loginHint == old(loginHint)
                && remembered == old(remembered) && rememberMeForm == old(rememberMeForm)
      ensures var username := TrimToNull(TryUsername(form, reauthenticationRequired, flowUser));
              CANCEL !in form.fields && username.Some? ==>
                var idps := DiscoverForUser(ctx, username.value);
                var redirect := |idps| == 1 || ctx.config.forwardToFirstMatch;
                && authNotes == old(authNotes)[ATTEMPTED_USERNAME := username.value]
                && (idps == [] ==>
                      && outcome == Attempted
                      && loginHint == Some(LoginHint(None, username.value))
                      && remembered == old(remembered) && rememberMeForm == old(rememberMeForm))
                && (idps != [] ==>
                      && rememberMeForm == Some(form) && remembered == username
                      && outcome == (if redirect then Redirect(idps[0]) else Chooser(idps))
                      && loginHint == (if redirect then Some(LoginHint(Some(idps[0]), username.value))
                                       else old(loginHint)))
    {
      if CANCEL in form.fields {
        outcome := Cancelled;
        return;
      }
      var username := SetUserInContext(TryUsername(form, reauthenticationRequired, flowUser));
      if username.None? {
        return;
      }
      ActionForUser(form, username.value);
    }
  }
}
