/**
  The values the discovery core receives from Keycloak and from the
  extension's own helpers whose code is not part of this model (Users,
  DomainExtractor, Domain, IdentityProviders, the HTTP request). Each such
  helper appears only through its signature, as a function field of
  `Context`; nothing is assumed about what it computes.
 */
module Keycloak {
  import opened Wrappers

  /** A configured identity provider; the core only ever reads its alias. */
  datatype IdentityProvider = IdentityProvider(alias: string)

  /** A user stored in the realm. */
  datatype User = User(id: string, username: string, emailVerified: bool)

  /** One federated-identity record of a user: the IdP alias and the remote user name. */
  datatype FederatedIdentity = FederatedIdentity(identityProvider: string, userName: string)

  /** The matching key produced by the domain extractor or by an override header. */
  datatype Domain = Domain(name: string)

  /** The authenticator configuration the core reads. */
  datatype Config = Config(
    userAttribute: string,
    forwardUserWithUnverifiedEmail: bool,
    forwardToLinkedIdp: bool,
    forwardToFirstMatch: bool)

  /**
    One login request as the core sees it: the configuration and the
    collaborators. `None` stands for Java's null where a collaborator may
    return it.
   */
  datatype Context = Context(
    config: Config,
    /** Users.lookupBy(username): the stored user, if any. */
    lookupBy: string -> Option<User>,
    /** DomainExtractor.extractFrom(String). */
    extractFromUsername: string -> Option<Domain>,
    /** DomainExtractor.extractFrom(UserModel). */
    extractFromUser: User -> Option<Domain>,
    /** HttpHeaders.getHeaderString(name); None when the header is absent. */
    header: string -> Option<string>,
    /** new Domain(raw), applied to a possibly absent header value. */
    newDomain: Option<string> -> Domain,
    /** IdentityProviders.candidatesForHomeIdp(context, user); may be null. */
    candidatesForHomeIdp: Option<User> -> Option<seq<IdentityProvider>>,
    /** IdentityProviders.withMatchingDomain(context, candidates, domain); may be null. */
    withMatchingDomain: (seq<IdentityProvider>, Domain) -> Option<seq<IdentityProvider>>,
    /** UserProvider.getFederatedIdentitiesStream(realm, user). */
    federatedIdentities: User -> seq<FederatedIdentity>)
}
