# Home IdP discovery: a Dafny model

This project models the selection policy of a Keycloak authenticator extension.
The extension picks the "home" identity provider (IdP) of a user during login.
It has two parts:

- **Discovery engine** (`EmailHomeIdpDiscoverer`, module `EmailHomeIdpDiscoverer`).
  It resolves the domain to match on.
  - In override ("epicon") mode, the configured user attribute is `customertag` or `host_header` (any case). The domain is then built from the `X-Customer-Tag` or `host` request header.
  - In standard mode, the domain comes from the stored user or from the typed username. A stored user whose e-mail is unverified yields no domain unless forwarding such users is enabled.
  - It then picks the result from three tiers, each an order-preserving filter: linked and matching, then linked among all candidates, then matching.
- **Flow step** (`HomeIdpDiscoveryAuthenticator`, module `HomeIdpDiscoveryAuthenticator`).
  - It trims usernames the way the authenticator does (`trimToNull`).
  - It picks a username hint from the session login hint or the `ATTEMPTED_USERNAME` note.
  - `authenticate` and `action` end in one of these outcomes: the plain username form, a failure challenge, a redirect, an IdP chooser, `attempted()`, or a cancelled login.
  - The class `Authenticator` holds the session state these steps write: auth notes, the stored login hint, the remembered username, the remember-me form, and the outcome.

Supporting modules:
- `JavaStrings` writes out `String.trim` (strips characters up to U+0020) and `String.equalsIgnoreCase`.
- `Keycloak` holds the boundary types. Each collaborator whose code is not part of this model is a function field of `Context`. This covers `Users.lookupBy`, `DomainExtractor`, `new Domain(...)`, `IdentityProviders.candidatesForHomeIdp` and `withMatchingDomain` (which may return null, modelled as `None`), the header lookup, and the federated-identity stream. Nothing is assumed about what any of them computes.

The code behaves as follows in three places where one might expect otherwise, and the model keeps that behaviour:
- In override mode the stored user is still looked up. It is passed to `candidatesForHomeIdp`, so the result can depend on the user through that collaborator. `OverrideIgnoresStoredUser` proves independence only when the candidate lookup answers the same for both users.
- In override mode a missing header is still handed to `new Domain(...)`, and matching is still attempted. The model keeps this as `newDomain(None)`.
- An empty discovery result is not a single "fall through" outcome. `authenticate` shows the plain username form, and `action` calls `attempted()` and stores the username as the login hint.

## Model

| member | source | states |
|---|---|---|
| `JavaStrings.Trim` | src/main/java/de/sventorben/keycloak/authentication/hidpd/HomeIdpDiscoveryAuthenticator.java:150 | the trimmed string is no longer than the input and neither of its ends is a character up to U+0020 |
| `JavaStrings.TrimIsInfix` | src/main/java/de/sventorben/keycloak/authentication/hidpd/HomeIdpDiscoveryAuthenticator.java:150 | the trim is a contiguous infix of the input, and every character outside it is at most U+0020 |
| `JavaStrings.TrimEmptyIffAllTrimmable` | src/main/java/de/sventorben/keycloak/authentication/hidpd/HomeIdpDiscoveryAuthenticator.java:150-152 | trimming gives "" exactly when every character is at most U+0020 |
| `JavaStrings.TrimKeepsContent` | src/main/java/de/sventorben/keycloak/authentication/hidpd/HomeIdpDiscoveryAuthenticator.java:150 | no character above U+0020 is lost by trimming |
| `JavaStrings.TrimOfTrimmed` | src/main/java/de/sventorben/keycloak/authentication/hidpd/HomeIdpDiscoveryAuthenticator.java:150 | a string with no trimmable character at either end is its own trim |
| `JavaStrings.TrimIdempotent` | src/main/java/de/sventorben/keycloak/authentication/hidpd/HomeIdpDiscoveryAuthenticator.java:150 | trimming twice equals trimming once |
| `JavaStrings.TrimLeading` | src/main/java/de/sventorben/keycloak/authentication/hidpd/HomeIdpDiscoveryAuthenticator.java:150 | the result is a suffix of the input; everything dropped is at most U+0020; its first character is not |
| `JavaStrings.TrimTrailing` | src/main/java/de/sventorben/keycloak/authentication/hidpd/HomeIdpDiscoveryAuthenticator.java:150 | the result is a prefix of the input; everything dropped is at most U+0020; its last character is not |
| `JavaStrings.CharEqualsIgnoreCaseIffLower` | src/main/java/de/sventorben/keycloak/authentication/hidpd/discovery/email/EmailHomeIdpDiscoverer.java:150 | the three-step character test of equalsIgnoreCase is equality of lower-case forms |
| `JavaStrings.EqualsIgnoreCase` | src/main/java/de/sventorben/keycloak/authentication/hidpd/discovery/email/EmailHomeIdpDiscoverer.java:150 | `String.equalsIgnoreCase`: equal strings compare equal, strings of different lengths never do |
| `JavaStrings.EqualsIgnoreCaseIffLowered` | src/main/java/de/sventorben/keycloak/authentication/hidpd/discovery/email/EmailHomeIdpDiscoverer.java:150 | equalsIgnoreCase holds iff both strings lower-case to the same string (both directions) |
| `JavaStrings.EqualsIgnoreCaseEmpty` | src/main/java/de/sventorben/keycloak/authentication/hidpd/HomeIdpDiscoveryAuthenticator.java:151 | `"".equalsIgnoreCase(s)` is an emptiness test |
| `EmailHomeIdpDiscoverer.IsEpicon` | src/main/java/de/sventorben/keycloak/authentication/hidpd/discovery/email/EmailHomeIdpDiscoverer.java:146-152 | override mode iff the user attribute lower-cases to `customertag` or `host_header` |
| `EmailHomeIdpDiscoverer.OverrideHeaderName` | src/main/java/de/sventorben/keycloak/authentication/hidpd/discovery/email/EmailHomeIdpDiscoverer.java:44 | the override header is `X-Customer-Tag` iff the attribute lower-cases to `customertag`, otherwise `host` |
| `EmailHomeIdpDiscoverer.ResolveDomain` | src/main/java/de/sventorben/keycloak/authentication/hidpd/discovery/email/EmailHomeIdpDiscoverer.java:42-65 | override mode always has a domain; in standard mode a stored user with unverified e-mail under the `email` attribute (any case) gets none unless forwarding is enabled (fail closed), and a stored user past that gate gets the domain extracted from the user |
| `EmailHomeIdpDiscoverer.OverrideDomainFromHeader` | src/main/java/de/sventorben/keycloak/authentication/hidpd/discovery/email/EmailHomeIdpDiscoverer.java:42-46 | in override mode the domain is built from header `X-Customer-Tag` (attribute `customertag`, any case) or `host`, and is the same for any username and any stored user |
| `EmailHomeIdpDiscoverer.StandardDomainSource` | src/main/java/de/sventorben/keycloak/authentication/hidpd/discovery/email/EmailHomeIdpDiscoverer.java:51-65 | standard mode: no stored user means the domain is extracted from the username; with a stored user the username plays no part, and a user past the unverified-e-mail gate gets the domain extracted from the user |
| `EmailHomeIdpDiscoverer.LinkedAliases` | src/main/java/de/sventorben/keycloak/authentication/hidpd/discovery/email/EmailHomeIdpDiscoverer.java:86-99 | empty without a stored user or with link preference off; otherwise exactly the aliases of the user's federated identities |
| `EmailHomeIdpDiscoverer.Candidates` | src/main/java/de/sventorben/keycloak/authentication/hidpd/discovery/email/EmailHomeIdpDiscoverer.java:101-104 | the candidate list is never null: the collaborator's list when it gives one, otherwise empty |
| `EmailHomeIdpDiscoverer.MatchingDomain` | src/main/java/de/sventorben/keycloak/authentication/hidpd/discovery/email/EmailHomeIdpDiscoverer.java:105-108 | the matching list is never null: the collaborator's list for the candidates and domain when it gives one, otherwise empty |
| `EmailHomeIdpDiscoverer.GetLinkedIdpsFrom` | src/main/java/de/sventorben/keycloak/authentication/hidpd/discovery/email/EmailHomeIdpDiscoverer.java:154-158 | a subsequence of the input that holds an IdP iff its alias is linked, keeping every linked occurrence (multiset) in input order |
| `EmailHomeIdpDiscoverer.DiscoverHomeIdps` | src/main/java/de/sventorben/keycloak/authentication/hidpd/discovery/email/EmailHomeIdpDiscoverer.java:82-136 | every IdP returned is a matching IdP or a candidate |
| `EmailHomeIdpDiscoverer.TierPriority` | src/main/java/de/sventorben/keycloak/authentication/hidpd/discovery/email/EmailHomeIdpDiscoverer.java:110-135 | standard mode: the result is the first non-empty of linked∩matching, linked∩candidates, matching (so [] when all are empty) |
| `EmailHomeIdpDiscoverer.LinkedMatchingFirst` | src/main/java/de/sventorben/keycloak/authentication/hidpd/discovery/email/EmailHomeIdpDiscoverer.java:110-116 | a linked matching IdP is always returned, and only linked matching IdPs come with it |
| `EmailHomeIdpDiscoverer.LinkedCandidateBeforeUnlinkedMatch` | src/main/java/de/sventorben/keycloak/authentication/hidpd/discovery/email/EmailHomeIdpDiscoverer.java:119-123 | with no linked matching IdP, a linked candidate wins over every unlinked matching IdP: the result is the linked candidates |
| `EmailHomeIdpDiscoverer.NoLinkPreference` | src/main/java/de/sventorben/keycloak/authentication/hidpd/discovery/email/EmailHomeIdpDiscoverer.java:86-126 | with no stored user or link preference off, the result is exactly the matching list |
| `EmailHomeIdpDiscoverer.OverrideIgnoresLinks` | src/main/java/de/sventorben/keycloak/authentication/hidpd/discovery/email/EmailHomeIdpDiscoverer.java:110-123 | in override mode the result is the matching list, whatever the federated identities and link-preference setting |
| `EmailHomeIdpDiscoverer.NullListsAreEmpty` | src/main/java/de/sventorben/keycloak/authentication/hidpd/discovery/email/EmailHomeIdpDiscoverer.java:101-108 | a null candidate or matching list gives the same result as an empty list |
| `EmailHomeIdpDiscoverer.DiscoverForUser` | src/main/java/de/sventorben/keycloak/authentication/hidpd/discovery/email/EmailHomeIdpDiscoverer.java:32-80 | without a domain the result is empty; a non-empty result implies a domain, and every IdP in it matches that domain or is a candidate for the stored user |
| `EmailHomeIdpDiscoverer.OverrideResult` | src/main/java/de/sventorben/keycloak/authentication/hidpd/discovery/email/EmailHomeIdpDiscoverer.java:101-113 | in override mode the result of discoverForUser is exactly the candidates matching the domain built from the header |
| `EmailHomeIdpDiscoverer.NoDomainNoLookup` | src/main/java/de/sventorben/keycloak/authentication/hidpd/discovery/email/EmailHomeIdpDiscoverer.java:68-79 | without a domain the result is [] whatever the IdP collaborators would answer: no lookup takes place |
| `EmailHomeIdpDiscoverer.OverrideIgnoresStoredUser` | src/main/java/de/sventorben/keycloak/authentication/hidpd/discovery/email/EmailHomeIdpDiscoverer.java:36-113 | override mode: requests that differ in username, stored user, domain extraction or federated identities get the same result when the candidate lookup answers the same |
| `HomeIdpDiscoveryAuthenticator.TrimToNull` | src/main/java/de/sventorben/keycloak/authentication/hidpd/HomeIdpDiscoveryAuthenticator.java:148-155 | null stays null; a blank string becomes null; otherwise the trimmed string, which is never empty |
| `HomeIdpDiscoveryAuthenticator.TrimToNullIdempotent` | src/main/java/de/sventorben/keycloak/authentication/hidpd/HomeIdpDiscoveryAuthenticator.java:148-155 | trimToNull applied to its own result changes nothing |
| `HomeIdpDiscoveryAuthenticator.UsernameHint` | src/main/java/de/sventorben/keycloak/authentication/hidpd/HomeIdpDiscoveryAuthenticator.java:73-79 | a usable session login hint takes precedence over the attempted-username note; the hint is null iff both are null or blank, and otherwise trimmed and non-empty |
| `HomeIdpDiscoveryAuthenticator.RedirectTarget` | src/main/java/de/sventorben/keycloak/authentication/hidpd/HomeIdpDiscoveryAuthenticator.java:82-83 | redirect iff (exactly one IdP and a non-empty username) or forwardToFirstMatch; the target is the first IdP |
| `HomeIdpDiscoveryAuthenticator.TryUsername` | src/main/java/de/sventorben/keycloak/authentication/hidpd/HomeIdpDiscoveryAuthenticator.java:104-109 | on re-authentication with a flow user, that user's username; otherwise the first submitted `username` value, null exactly when the form has none |
| `HomeIdpDiscoveryAuthenticator.Authenticator.SetUserInContext` | src/main/java/de/sventorben/keycloak/authentication/hidpd/HomeIdpDiscoveryAuthenticator.java:130-146 | null or blank: failure challenge, null result, no note written; otherwise the trimmed username is stored as ATTEMPTED_USERNAME and returned |
| `HomeIdpDiscoveryAuthenticator.Authenticator.RedirectOrChallenge` | src/main/java/de/sventorben/keycloak/authentication/hidpd/HomeIdpDiscoveryAuthenticator.java:81-91 | redirect to the first IdP under the redirect rule, storing the login hint only with a non-empty username; otherwise the chooser with the list unchanged |
| `HomeIdpDiscoveryAuthenticator.Authenticator.AuthenticateWithHint` | src/main/java/de/sventorben/keycloak/authentication/hidpd/HomeIdpDiscoveryAuthenticator.java:42-51 | standard mode with a hint: the hint becomes ATTEMPTED_USERNAME; with IdPs found the user is remembered and the redirect rule decides; with none nothing else changes and the step is not finished |
| `HomeIdpDiscoveryAuthenticator.Authenticator.AuthenticateOverride` | src/main/java/de/sventorben/keycloak/authentication/hidpd/HomeIdpDiscoveryAuthenticator.java:52-68 | override mode: a hint is recorded and remembered whatever discovery finds, discovery runs for "" without one; a match redirects to the first IdP only with forwardToFirstMatch, else the chooser; no login hint is stored |
| `HomeIdpDiscoveryAuthenticator.Authenticator.Authenticate` | src/main/java/de/sventorben/keycloak/authentication/hidpd/HomeIdpDiscoveryAuthenticator.java:33-71 | plain form without bypass, without a hint in standard mode, or with no IdPs; standard mode remembers only on a result; override mode records and remembers the hint before discovery, discovers with "" without one, and redirects only with forwardToFirstMatch |
| `HomeIdpDiscoveryAuthenticator.Authenticator.ActionForUser` | src/main/java/de/sventorben/keycloak/authentication/hidpd/HomeIdpDiscoveryAuthenticator.java:118-127 | no IdPs: attempted() and the username stored as login hint, remember-me untouched; otherwise remember-me gets the form and the username, and the redirect rule decides |
| `HomeIdpDiscoveryAuthenticator.Authenticator.Action` | src/main/java/de/sventorben/keycloak/authentication/hidpd/HomeIdpDiscoveryAuthenticator.java:94-128 | cancel cancels and changes nothing else; a missing username fails; no IdPs gives attempted() plus the username as login hint; otherwise remember-me handles the form, remembers, and the redirect rule decides |

## Left out

- Logging (`LOG.*` calls and `logFoundIdps`): tracing only.
- Event and audit details written by `setUserInContext` (`USER_NOT_FOUND`, the username detail): audit plumbing.
- The construction of challenge pages, `createLoginForm` and `getDefaultChallengeMessage`, and the trivial overrides `requiresUser`, `configuredFor` and `setRequiredActions`: these are constants or no-ops. The failure challenge is kept as an outcome value.
- The rules of `Domain`, `DomainExtractor`, `IdentityProviders`, `Users.lookupBy`, `RememberMe`, the login-hint store and the redirector: their code is not part of this model. They are function fields of `Context` or fields of `Authenticator` that record what was handed to them.
- The exception `Collectors.toMap` throws on duplicate federated-identity aliases: linked IdPs are modelled as a set of aliases.
- `JavaStrings.EqualsIgnoreCase`: case mapping covers only the ASCII letters. Java also equates non-ASCII forms, e.g. U+017F (long s) with `s`, so a user attribute such as `cu\u017Ftomertag` also selects override mode in Java. U+212A (Kelvin sign, `k`) does not matter here: none of `customertag`, `host_header` and `email` contains a `k`.
- Java strings are UTF-16 code units, while the model uses Unicode characters. `trim`'s threshold of U+0020 is the same in both.
- The order of remember-me and discovery in override mode is not observable: discovery has no side effects in the model. What is kept is that the hint is remembered even when discovery finds nothing.
- The realm name and the authenticator-config alias are read only for logging.
- `authenticate` and `action` each have a helper method for one branch: `AuthenticateWithHint`, `AuthenticateOverride` and `ActionForUser`. This keeps each proof small. The state changes are the same as in the inline Java code.
