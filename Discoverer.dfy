/**
  EmailHomeIdpDiscoverer: decides which domain a login attempt is matched
  on, and which of the realm's identity providers are its home IdPs.

  Two modes, selected by the configured user attribute:
  - override ("epicon") mode, attribute `customertag` or `host_header`
    (ignoring case): the domain is built from a request header and the
    result is every candidate IdP matching it;
  - standard mode: the domain comes from the stored user (with a fail-closed
    gate for unverified e-mail) or from the typed username, and IdPs the user
    has already linked are preferred, in three tiers.
 */
module EmailHomeIdpDiscoverer {
  import opened Wrappers
  import opened JavaStrings
  import opened Keycloak

  const EMAIL_ATTRIBUTE := "email"
  const CUSTOMER_TAG_ATTRIBUTE := "customertag"
  const HOST_HEADER_ATTRIBUTE := "host_header"
  const CUSTOMER_TAG_HEADER := "X-Customer-Tag"
  const HOST_HEADER := "host"

  /* ---------------------------------------------------------------- mode */

  lemma {:induction false} LoweredOfLowerCase(s: string)
    requires forall i :: 0 <= i < |s| ==> !('A' <= s[i] <= 'Z')
    ensures Lowered(s) == s
  {
    assert forall i :: 0 <= i < |s| ==> Lowered(s)[i] == s[i];
  }

  /**
    Override mode is on when the user attribute names one of the two override
    keys, ignoring case: exactly when it lower-cases to `customertag` or
    `host_header`.
   */
  predicate IsEpicon(config: Config): (r: bool)
    ensures r <==> Lowered(config.userAttribute) == CUSTOMER_TAG_ATTRIBUTE
                   || Lowered(config.userAttribute) == HOST_HEADER_ATTRIBUTE
  {
    LoweredOfLowerCase(CUSTOMER_TAG_ATTRIBUTE);
    LoweredOfLowerCase(HOST_HEADER_ATTRIBUTE);
    EqualsIgnoreCaseIffLowered(config.userAttribute, CUSTOMER_TAG_ATTRIBUTE);
    EqualsIgnoreCaseIffLowered(config.userAttribute, HOST_HEADER_ATTRIBUTE);
    EqualsIgnoreCase(config.userAttribute, CUSTOMER_TAG_ATTRIBUTE)
    || EqualsIgnoreCase(config.userAttribute, HOST_HEADER_ATTRIBUTE)
  }

  /**
    The request header that carries the override domain: `X-Customer-Tag`
    exactly when the attribute lower-cases to `customertag`, otherwise `host`.
   */
  function OverrideHeaderName(config: Config): (r: string)
    ensures r == CUSTOMER_TAG_HEADER <==> Lowered(config.userAttribute) == CUSTOMER_TAG_ATTRIBUTE
    ensures r != CUSTOMER_TAG_HEADER ==> r == HOST_HEADER
  {
    LoweredOfLowerCase(CUSTOMER_TAG_ATTRIBUTE);
    EqualsIgnoreCaseIffLowered(config.userAttribute, CUSTOMER_TAG_ATTRIBUTE);
    if EqualsIgnoreCase(config.userAttribute, CUSTOMER_TAG_ATTRIBUTE) then CUSTOMER_TAG_HEADER else HOST_HEADER
  }

  /* -------------------------------------------------------------- domain */

  /**
    The domain discovery matches on. In override mode it is always present
    and comes from the header; in standard mode an unverified e-mail closes
    the gate unless forwarding such users is enabled.
   */
  function ResolveDomain(ctx: Context, username: string, user: Option<User>): (r: Option<Domain>)
    ensures IsEpicon(ctx.config) ==> r.Some?
    ensures (!IsEpicon(ctx.config) && user.Some? && EqualsIgnoreCase(EMAIL_ATTRIBUTE, ctx.config.userAttribute)
             && !user.value.emailVerified && !ctx.config.forwardUserWithUnverifiedEmail) ==> r.None?
    ensures (!IsEpicon(ctx.config) && user.Some?
             && !(EqualsIgnoreCase(EMAIL_ATTRIBUTE, ctx.config.userAttribute)
                  && !user.value.emailVerified && !ctx.config.forwardUserWithUnverifiedEmail))
            ==> r == ctx.extractFromUser(user.value)
  {
    if IsEpicon(ctx.config) then
      Some(ctx.newDomain(ctx.header(OverrideHeaderName(ctx.config))))
    else if user.None? then
      ctx.extractFromUsername(username)
    else if EqualsIgnoreCase(EMAIL_ATTRIBUTE, ctx.config.userAttribute) && !user.value.emailVerified
            && !ctx.config.forwardUserWithUnverifiedEmail then
      None
    else
      ctx.extractFromUser(user.value)
  }

  /**
    In override mode the domain is built from the `X-Customer-Tag` header
    when the attribute is `customertag` (any case), else from `host`; neither
    the username nor the stored user has any influence.
   */
  lemma OverrideDomainFromHeader(ctx: Context, username1: string, user1: Option<User>,
                                 username2: string, user2: Option<User>)
    requires IsEpicon(ctx.config)
    ensures ResolveDomain(ctx, username1, user1) == ResolveDomain(ctx, username2, user2)
    ensures var header := if Lowered(ctx.config.userAttribute) == CUSTOMER_TAG_ATTRIBUTE then CUSTOMER_TAG_HEADER else HOST_HEADER;
            ResolveDomain(ctx, username1, user1) == Some(ctx.newDomain(ctx.header(header)))
  {
  }

  /**
    Standard mode: without a stored user the domain comes from the typed
    username; with one, the typed username plays no part.
   */
  lemma StandardDomainSource(ctx: Context, username1: string, username2: string, user: Option<User>)
    requires !IsEpicon(ctx.config)
    ensures user.None? ==> ResolveDomain(ctx, username1, user) == ctx.extractFromUsername(username1)
    ensures user.Some? ==> ResolveDomain(ctx, username1, user) == ResolveDomain(ctx, username2, user)
    ensures user.Some? && !(EqualsIgnoreCase(EMAIL_ATTRIBUTE, ctx.config.userAttribute)
                            && !user.value.emailVerified && !ctx.config.forwardUserWithUnverifiedEmail) ==>
              ResolveDomain(ctx, username1, user) == ctx.extractFromUser(user.value)
  {
  }

  /* ------------------------------------------------------------ IdP sets */

  /** Aliases of the IdPs the user is linked to; empty without a stored user or link preference. */
  function LinkedAliases(ctx: Context, user: Option<User>): (r: set<string>)
    ensures r != {} ==> user.Some? && ctx.config.forwardToLinkedIdp
    ensures user.Some? && ctx.config.forwardToLinkedIdp ==>
      forall alias :: alias in r <==> exists fi :: fi in ctx.federatedIdentities(user.value) && fi.identityProvider == alias
  {
    if user.None? || !ctx.config.forwardToLinkedIdp then {}
    else set fi | fi in ctx.federatedIdentities(user.value) :: fi.identityProvider
  }

  /** The eligible IdPs, a null answer read as empty. */
  function Candidates(ctx: Context, user: Option<User>): (r: seq<IdentityProvider>)
    ensures ctx.candidatesForHomeIdp(user).None? ==> r == []
    ensures ctx.candidatesForHomeIdp(user).Some? ==> r == ctx.candidatesForHomeIdp(user).value
  {
    ctx.candidatesForHomeIdp(user).GetOr([])
  }

  /** The candidates whose domain matches, a null answer read as empty. */
  function MatchingDomain(ctx: Context, user: Option<User>, domain: Domain): (r: seq<IdentityProvider>)
    ensures ctx.withMatchingDomain(Candidates(ctx, user), domain).None? ==> r == []
    ensures ctx.withMatchingDomain(Candidates(ctx, user), domain).Some? ==>
              r == ctx.withMatchingDomain(Candidates(ctx, user), domain).value
  {
    ctx.withMatchingDomain(Candidates(ctx, user), domain).GetOr([])
  }

  /** `a` is `b` with some elements left out, order kept. */
  ghost predicate Subsequence<T>(a: seq<T>, b: seq<T>)
    decreases |b|
  {
    if a == [] then true
    else if b == [] then false
    else if a[0] == b[0] then Subsequence(a[1..], b[1..])
    else Subsequence(a, b[1..])
  }

  /**
    The IdPs of `idps` whose alias is linked, in input order: a subsequence
    that keeps every linked occurrence and nothing else.
   */
  function GetLinkedIdpsFrom(idps: seq<IdentityProvider>, linked: set<string>): (r: seq<IdentityProvider>)
    ensures Subsequence(r, idps)
    ensures forall x :: x in r <==> x in idps && x.alias in linked
    ensures forall x :: multiset(r)[x] == if x.alias in linked then multiset(idps)[x] else 0
  {
    if idps == [] then []
    else
      assert idps == [idps[0]] + idps[1..];
      if idps[0].alias in linked then [idps[0]] + GetLinkedIdpsFrom(idps[1..], linked)
      else GetLinkedIdpsFrom(idps[1..], linked)
  }

  lemma NothingLinked(idps: seq<IdentityProvider>)
    ensures GetLinkedIdpsFrom(idps, {}) == []
  {
  }

  /* ------------------------------------------------------------ priority */

  /** The first non-empty sequence among `tiers`, or [] when all are empty. */
  function FirstNonEmpty<T>(tiers: seq<seq<T>>): (r: seq<T>)
    ensures r == [] <==> forall i :: 0 <= i < |tiers| ==> tiers[i] == []
    ensures r != [] ==> exists i :: 0 <= i < |tiers| && r == tiers[i] && forall j :: 0 <= j < i ==> tiers[j] == []
  {
    if tiers == [] then []
    else if tiers[0] != [] then tiers[0]
    else
      var rest := FirstNonEmpty(tiers[1..]);
      assert rest != [] ==> exists i :: 0 <= i < |tiers| && rest == tiers[i] && forall j :: 0 <= j < i ==> tiers[j] == [] by {
        if rest != [] {
          var k :| 0 <= k < |tiers[1..]| && rest == tiers[1..][k] && forall j :: 0 <= j < k ==> tiers[1..][j] == [];
          assert rest == tiers[k + 1];
          forall j | 0 <= j < k + 1 ensures tiers[j] == [] {
            if j > 0 {
              assert tiers[j] == tiers[1..][j - 1];
            }
          }
        }
      }
      rest
  }

  /**
    The home IdPs for a resolved domain. The code keeps one variable and
    overwrites it branch by branch; the result is characterised in
    `TierPriority`.
   */
  function DiscoverHomeIdps(ctx: Context, domain: Domain, user: Option<User>): (r: seq<IdentityProvider>)
    ensures forall x :: x in r ==> x in MatchingDomain(ctx, user, domain) || x in Candidates(ctx, user)
  {
    var linked := LinkedAliases(ctx, user);
    var candidates := Candidates(ctx, user);
    var matching := MatchingDomain(ctx, user, domain);
    var first := if IsEpicon(ctx.config) then matching else GetLinkedIdpsFrom(matching, linked);
    if first != [] then first
    else
      var second := if linked != {} && !IsEpicon(ctx.config) then GetLinkedIdpsFrom(candidates, linked) else first;
      if second != [] then second else matching
  }

  /**
    Standard mode: the result is the first non-empty tier among linked and
    matching, linked among all candidates, and matching.
   */
  lemma TierPriority(ctx: Context, domain: Domain, user: Option<User>)
    requires !IsEpicon(ctx.config)
    ensures var linked := LinkedAliases(ctx, user);
            var matching := MatchingDomain(ctx, user, domain);
            DiscoverHomeIdps(ctx, domain, user) ==
              FirstNonEmpty([GetLinkedIdpsFrom(matching, linked),
                             GetLinkedIdpsFrom(Candidates(ctx, user), linked),
                             matching])
  {
    var linked := LinkedAliases(ctx, user);
    var matching := MatchingDomain(ctx, user, domain);
    var tiers := [GetLinkedIdpsFrom(matching, linked), GetLinkedIdpsFrom(Candidates(ctx, user), linked), matching];
    if linked == {} {
      NothingLinked(Candidates(ctx, user));
      NothingLinked(matching);
    }
    assert tiers[1..] == [tiers[1], tiers[2]];
    assert tiers[1..][1..] == [tiers[2]];
  }

  /**
    A linked IdP that also matches the domain always wins: it is returned,
    and only linked, domain-matching IdPs come with it.
   */
  lemma LinkedMatchingFirst(ctx: Context, domain: Domain, user: Option<User>, idp: IdentityProvider)
    requires !IsEpicon(ctx.config)
    requires idp in MatchingDomain(ctx, user, domain) && idp.alias in LinkedAliases(ctx, user)
    ensures idp in DiscoverHomeIdps(ctx, domain, user)
    ensures forall x :: x in DiscoverHomeIdps(ctx, domain, user) ==>
              x in MatchingDomain(ctx, user, domain) && x.alias in LinkedAliases(ctx, user)
  {
  }

  /**
    Without a linked matching IdP, a linked candidate outranks every
    unlinked IdP with a matching domain.
   */
  lemma LinkedCandidateBeforeUnlinkedMatch(ctx: Context, domain: Domain, user: Option<User>, idp: IdentityProvider)
    requires !IsEpicon(ctx.config)
    requires forall x :: x in MatchingDomain(ctx, user, domain) ==> x.alias !in LinkedAliases(ctx, user)
    requires idp in Candidates(ctx, user) && idp.alias in LinkedAliases(ctx, user)
    ensures DiscoverHomeIdps(ctx, domain, user) == GetLinkedIdpsFrom(Candidates(ctx, user), LinkedAliases(ctx, user))
    ensures idp in DiscoverHomeIdps(ctx, domain, user)
  {
    var linked := LinkedAliases(ctx, user);
    var first := GetLinkedIdpsFrom(MatchingDomain(ctx, user, domain), linked);
    assert forall x :: x !in first;
    assert idp in GetLinkedIdpsFrom(Candidates(ctx, user), linked);
  }

  /** With no stored user, or link preference off, the result is the matching list. */
  lemma NoLinkPreference(ctx: Context, domain: Domain, user: Option<User>)
    requires user.None? || !ctx.config.forwardToLinkedIdp
    ensures DiscoverHomeIdps(ctx, domain, user) == MatchingDomain(ctx, user, domain)
  {
    NothingLinked(MatchingDomain(ctx, user, domain));
  }

  /**
    In override mode the result is the matching list, whatever IdPs the user
    is linked to and whatever the link-preference setting says.
   */
  lemma OverrideIgnoresLinks(ctx: Context, domain: Domain, user: Option<User>,
                             federated: User -> seq<FederatedIdentity>, forwardToLinkedIdp: bool)
    requires IsEpicon(ctx.config)
    ensures var other := ctx.(federatedIdentities := federated,
                              config := ctx.config.(forwardToLinkedIdp := forwardToLinkedIdp));
            DiscoverHomeIdps(ctx, domain, user) == DiscoverHomeIdps(other, domain, user)
              == MatchingDomain(ctx, user, domain)
  {
  }

  /**
    A null candidate or matching list from the collaborators behaves exactly
    as an empty one would.
   */
  lemma NullListsAreEmpty(ctx: Context, domain: Domain, user: Option<User>)
    ensures var nonNull := ctx.(
              candidatesForHomeIdp := u => Some(ctx.candidatesForHomeIdp(u).GetOr([])),
              withMatchingDomain := (c, d) => Some(ctx.withMatchingDomain(c, d).GetOr([])));
            DiscoverHomeIdps(nonNull, domain, user) == DiscoverHomeIdps(ctx, domain, user)
  {
  }

  /* --------------------------------------------------------- entry point */

  /**
    `discoverForUser`: resolve the domain, and with one, look up the home IdPs.
    Without a domain nothing is found; every IdP found matches the domain or
    is a candidate for the stored user.
   */
  function DiscoverForUser(ctx: Context, username: string): (r: seq<IdentityProvider>)
    ensures ResolveDomain(ctx, username, ctx.lookupBy(username)).None? ==> r == []
    ensures r != [] ==> ResolveDomain(ctx, username, ctx.lookupBy(username)).Some?
    ensures ResolveDomain(ctx, username, ctx.lookupBy(username)).Some? ==>
              forall x :: x in r ==>
                x in MatchingDomain(ctx, ctx.lookupBy(username), ResolveDomain(ctx, username, ctx.lookupBy(username)).value)
                || x in Candidates(ctx, ctx.lookupBy(username))
  {
    var user := ctx.lookupBy(username);
    match ResolveDomain(ctx, username, user)
    case None => []
    case Some(domain) => DiscoverHomeIdps(ctx, domain, user)
  }

  /** In override mode the result is the candidates matching the domain built from the header. */
  lemma OverrideResult(ctx: Context, username: string)
    requires IsEpicon(ctx.config)
    ensures DiscoverForUser(ctx, username) ==
              MatchingDomain(ctx, ctx.lookupBy(username), ctx.newDomain(ctx.header(OverrideHeaderName(ctx.config))))
  {
  }

  /**
    Without a domain no IdP lookup takes place: the result is [] whatever the
    IdP collaborators would have answered.
   */
  lemma NoDomainNoLookup(ctx: Context, username: string,
                         candidates: Option<User> -> Option<seq<IdentityProvider>>,
                         matching: (seq<IdentityProvider>, Domain) -> Option<seq<IdentityProvider>>)
    requires ResolveDomain(ctx, username, ctx.lookupBy(username)).None?
    ensures DiscoverForUser(ctx, username) == []
    ensures DiscoverForUser(ctx.(candidatesForHomeIdp := candidates, withMatchingDomain := matching), username) == []
  {
  }

  /**
    Override mode ignores the username and the stored user's attributes: two
    requests whose users differ (and whose usernames differ) get the same
    result as long as the candidate lookup answers the same for both users.
   */
  lemma OverrideIgnoresStoredUser(ctx: Context, username1: string, ctx2: Context, username2: string)
    requires IsEpicon(ctx.config)
    requires ctx2 == ctx.(lookupBy := ctx2.lookupBy, extractFromUsername := ctx2.extractFromUsername,
                          extractFromUser := ctx2.extractFromUser, federatedIdentities := ctx2.federatedIdentities)
    requires ctx.candidatesForHomeIdp(ctx.lookupBy(username1)) == ctx.candidatesForHomeIdp(ctx2.lookupBy(username2))
    ensures DiscoverForUser(ctx, username1) == DiscoverForUser(ctx2, username2)
  {
  }
}
