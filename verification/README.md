# Authentication gate of the file-storage service, modelled in Dafny

This project models the security layer of a Spring Boot file-storage service. It covers three parts:

- **Failure translator** (`ExceptionHandlingController`): six exception handlers. Each one writes one audit record from a six-field JSON template, then answers with an HTTP status and a body. Some bodies echo the exception message, some replace a null message with a fixed text, and some never show the message.
- **Login filter** (`JwtUsernameAndPasswordAuthenticationFilter`): it processes only the login URL given at construction. It reads the username and password from the body, asks the authentication manager to authenticate them and, on success, adds one header to the response. That header holds the token prefix followed by a signed token. The token's claims are the subject, the comma-joined authorities, the issue time and the expiry (a clock reading plus the configured hours).
- **User-details service** (`UserDetailsServiceImpl`): it looks a user up by name. A missing user raises `UsernameNotFoundException` with a message that names the user. A stored user becomes details that copy its name and password hash, set all four account flags, and take the role's authorities.

Files:

- `wrappers.dfy`: `Option` (a Java reference that may be null) and `Result` (a value or a thrown exception).
- `audit_log.dfy`: the log template and how `String.format` fills it in. A null `%s` prints as `null`, and `%d` prints decimal digits.
- `exception_handling.dfy`: the six handlers, `generateLogMessage`, `getResponseEntity`, and the dispatch on the failure's tag.
- `jwt_login.dfy`: the filter as a class whose URL is set at construction. It also holds a response class whose `AddHeader` appends one header.
- `user_details.dfy`: `loadUserByUsername` and `getUserDetails`.

Outside collaborators become parameters. These are the authentication manager, the JWS signer (the secret key is bound inside it), the user store and the role-to-authorities mapping. Each clock reading is also a parameter.

Notes on the code's behaviour:

- When a missing user's exception has a null message, the body is "User not found in the database".
- A `ConversionFailedException` answers 400 and echoes its message as the body.
- The audit record has no "anonymous" fallback: a null principal makes the handler throw.
- None of these handlers answers 401.

## Model

| member | source | states |
|---|---|---|
| `AuditLog.DecimalRoundTrip` | src/main/java/es/vira/application/controller/ExceptionHandlingController.java:24 | The `%d` timestamp text reads back to the same number and contains no double quote |
| `AuditLog.FormatLogAsInterleave` | src/main/java/es/vira/application/controller/ExceptionHandlingController.java:21-28 | The formatted record is the template head followed by each of the six field texts, in order, each one followed by the template text up to the next placeholder |
| `AuditLog.FormatLogInjective` | src/main/java/es/vira/application/controller/ExceptionHandlingController.java:21-28 | Two records whose fields contain no double quote and that format to the same text agree on user, address, timestamp, exception class, printed message and URI |
| `AuditLog.DecimalText` | src/main/java/es/vira/application/controller/ExceptionHandlingController.java:24 | `%d` text: non-empty, starts with a minus sign exactly when the number is negative, and every other character is a decimal digit |
| `AuditLog.ShowString` | src/main/java/es/vira/application/controller/ExceptionHandlingController.java:43 | `%s` of a string prints the string itself, and of a null reference prints "null" |
| `AuditLog.FormatLog` | src/main/java/es/vira/application/controller/ExceptionHandlingController.java:21-28 | The text starts with the template head followed by the username, and ends with the template's closing text. `FormatLogAsInterleave` and `FormatLogInjective` state the rest of its contract |
| `AuditLog.NullMessagePrintsAsText` | src/main/java/es/vira/application/controller/ExceptionHandlingController.java:43 | A null message and the message "null" give the same log text |
| `ExceptionHandling.LogRecordFor` | src/main/java/es/vira/application/controller/ExceptionHandlingController.java:38-45 | The record's six fields are, in order, the principal's name, the remote address, the clock reading, the exception's class name, its message (null kept) and the request URI |
| `ExceptionHandling.GenerateLogMessage` | src/main/java/es/vira/application/controller/ExceptionHandlingController.java:38-45 | A record is built if and only if the principal is non-null, and it is the record of that principal's name |
| `ExceptionHandling.LogThenRespond` | src/main/java/es/vira/application/controller/ExceptionHandlingController.java:34-35 | A handler answers only after writing exactly the record `generateLogMessage` builds, and fails with no answer when that throws |
| `ExceptionHandling.GetResponseEntity` | src/main/java/es/vira/application/controller/ExceptionHandlingController.java:90-93 | The response carries the given body, null included, and the given status |
| `ExceptionHandling.HandleException` | src/main/java/es/vira/application/controller/ExceptionHandlingController.java:30-36 | Catch-all: 500, and the body is exactly the message, null included; one record is written |
| `ExceptionHandling.HandleUserNotFoundException` | src/main/java/es/vira/application/controller/ExceptionHandlingController.java:47-54 | 404; the body is the message, or "User not found in the database" when it is null; the body is never null |
| `ExceptionHandling.HandleHttpMessageNotReadableException` | src/main/java/es/vira/application/controller/ExceptionHandlingController.java:56-63 | 400, and the body is always the reason phrase "Bad Request", never the message |
| `ExceptionHandling.HandleAccessDeniedException` | src/main/java/es/vira/application/controller/ExceptionHandlingController.java:65-71 | 403, and the body is always "Access is denied", whatever the message |
| `ExceptionHandling.HandleUsernameAlreadyExistsException` | src/main/java/es/vira/application/controller/ExceptionHandlingController.java:73-80 | 409; the body is the message, or "Username already exists" when it is null; the body is never null |
| `ExceptionHandling.HandleConversionFailedException` | src/main/java/es/vira/application/controller/ExceptionHandlingController.java:82-88 | 400, and the message is echoed as the body, null included |
| `ExceptionHandling.HandleFailure` | src/main/java/es/vira/application/controller/ExceptionHandlingController.java:30-88 | Each failure goes to its own handler. The status is the handler's entry in the status table. The body is null exactly when the handler echoes a null message. The record always keeps the raw message |
| `ExceptionHandling.StatusIgnoresMessage` | src/main/java/es/vira/application/controller/ExceptionHandlingController.java:30-88 | For a non-null principal, two failures of the same kind get the same status, whatever their messages, requests, principals and clock readings |
| `ExceptionHandling.SanitizedHandlersHideMessage` | src/main/java/es/vira/application/controller/ExceptionHandlingController.java:56-71 | For a malformed body or a denied access, the response does not depend on the message, while the record keeps the message |
| `ExceptionHandling.AnonymousConflictIsLost` | src/main/java/es/vira/application/controller/ExceptionHandlingController.java:39 | A duplicate-username failure with a null principal produces no 409 response: the handler fails first |
| `ExceptionHandling.HandleFailureAnonymousSafe` | src/main/java/es/vira/application/controller/ExceptionHandlingController.java:38-45 | Corrected handler. It always answers, with the same response as for a known user, and logs a null principal as "anonymous". It is identical to the code whenever the principal is present |
| `JwtLogin.JoinAuthorities` | src/main/java/es/vira/infraestructure/security/jwt/JwtUsernameAndPasswordAuthenticationFilter.java:66-68 | No authorities join to ""; a single authority joins to itself |
| `JwtLogin.JoinSplitRoundTrip` | src/main/java/es/vira/infraestructure/security/jwt/JwtUsernameAndPasswordAuthenticationFilter.java:66-68 | Splitting the joined text at commas gives back the authorities in iteration order, for a non-empty list with no comma in any authority |
| `JwtLogin.EmptyAuthoritiesClaim` | src/main/java/es/vira/infraestructure/security/jwt/JwtUsernameAndPasswordAuthenticationFilter.java:66-68 | No authorities and one empty authority both give the claim "" |
| `JwtLogin.TokenClaims` | src/main/java/es/vira/infraestructure/security/jwt/JwtUsernameAndPasswordAuthenticationFilter.java:69-73 | The subject is the principal's name and the authorities claim is their comma join. Issued-at is the first clock reading. The expiry is the second reading plus the configured hours in milliseconds |
| `JwtLogin.TokenAuthoritiesDecode` | src/main/java/es/vira/infraestructure/security/jwt/JwtUsernameAndPasswordAuthenticationFilter.java:66-71 | When the principal has at least one authority and no authority contains a comma, the token's authorities claim splits back to those authorities, in order |
| `JwtLogin.LoginFilter.constructor` | src/main/java/es/vira/infraestructure/security/jwt/JwtUsernameAndPasswordAuthenticationFilter.java:30-38 | Keeps the manager, the properties and the key-bound signer, and sets the processed URL to the one given |
| `JwtLogin.LoginFilter.RequiresAuthentication` | src/main/java/es/vira/infraestructure/security/jwt/JwtUsernameAndPasswordAuthenticationFilter.java:37 | A request is processed if and only if its path is the URL set at construction |
| `JwtLogin.LoginFilter.AttemptAuthentication` | src/main/java/es/vira/infraestructure/security/jwt/JwtUsernameAndPasswordAuthenticationFilter.java:40-55 | A readable body makes one request that carries exactly the parsed username and password, and the manager's answer is returned. An IOException is rethrown as a RuntimeException with that cause. A JSON `null` body fails with a NullPointerException that is not wrapped. In both failure cases the manager is not called |
| `JwtLogin.LoginFilter.TokenHeader` | src/main/java/es/vira/infraestructure/security/jwt/JwtUsernameAndPasswordAuthenticationFilter.java:69-76 | The header's name is the configured one, and its value is the configured prefix followed by the signed claims |
| `JwtLogin.LoginFilter.SuccessfulAuthentication` | src/main/java/es/vira/infraestructure/security/jwt/JwtUsernameAndPasswordAuthenticationFilter.java:61-77 | Exactly one header, the token header, is appended; the status, the body and the earlier headers are unchanged |
| `JwtLogin.HttpResponse.AddHeader` | src/main/java/es/vira/infraestructure/security/jwt/JwtUsernameAndPasswordAuthenticationFilter.java:76 | Appends one header and changes nothing else |
| `JwtLogin.LoginFilter.DoFilter` | src/main/java/es/vira/infraestructure/security/jwt/JwtUsernameAndPasswordAuthenticationFilter.java:33-37 | Only requests to the constructed URL are processed; others pass on with the response untouched. Only a successful authentication writes to the response, and it writes the token header |
| `UserDetails.NotFoundMessage` | src/main/java/es/vira/infraestructure/security/UserDetailsServiceImpl.java:24 | The message is "User with ", then the username, then " wasn't found" |
| `UserDetails.NotFoundMessageInjective` | src/main/java/es/vira/infraestructure/security/UserDetailsServiceImpl.java:24 | Different usernames give different messages |
| `UserDetails.GetUserDetails` | src/main/java/es/vira/infraestructure/security/UserDetailsServiceImpl.java:27-37 | Copies the stored username and password hash, sets all four account flags to true, and takes the role's authorities unchanged |
| `UserDetails.LoadUserByUsername` | src/main/java/es/vira/infraestructure/security/UserDetailsServiceImpl.java:21-25 | Looks up exactly the given name. It fails with "User with <name> wasn't found" if and only if no user is found, and otherwise returns that user's details |
| `UserDetails.LoadedDetailsPassAccountChecks` | src/main/java/es/vira/infraestructure/security/UserDetailsServiceImpl.java:21-37 | Any found user loads successfully, with the stored name, and passes all four account-status checks |

## Findings

| source | as written | input that shows it | evidently intended | confidence | as-written member | corrected member |
|---|---|---|---|---|---|---|
| src/main/java/es/vira/application/controller/ExceptionHandlingController.java:39 | `principal.getName()` is called whatever the principal is. Spring passes a null `Principal` for an anonymous request, so every handler throws NullPointerException before it builds a response | An anonymous request to the permit-all path `/api/auth/register` (src/main/java/es/vira/infraestructure/security/SecurityConfiguration.java:58) whose username is taken raises UsernameAlreadyExistsException; the principal is null | The record is written under "anonymous" and the 409 response is returned | medium; not executed | `ExceptionHandling.AnonymousConflictIsLost` | `ExceptionHandling.HandleFailureAnonymousSafe` |

## Left out

- Spring's choice of the most specific `@ExceptionHandler` by exception class hierarchy is not modelled. The `FailureKind` tag of each failure names the chosen handler.
- The Log4j calls are not modelled. The handlers return the record they would log, and the exception passed to `LOGGER.error` for its stack trace is not modelled. The `LOGGER.error(e)` in `attemptAuthentication` is dropped too.
- `System.currentTimeMillis()`, `new Date()` and `Instant.now()` are parameters. `%d` is modelled with ASCII digits, with no locale-specific digits.
- AuditLog.FormatLogInjective: holds only for fields without a double quote. `%s` does not escape, so a message that contains quotes can make two records print alike.
- JWS signing and compaction (`Jwts.builder()...signWith(secretKey).compact()`) is the `sign` parameter. No sign/parse round trip is claimed, because the token verification filter is not part of this model. `SplitOnComma` is a reference reading of the authorities claim, not that filter.
- The JWT wire format rounds times down to whole seconds inside signing. The model keeps the claims in milliseconds.
- JwtLogin.TokenClaims: uses unbounded integers. It does not model the exception that `Instant.plus` or `Date.from` throws when the configured hours push the expiry outside their range.
- Jackson's reading of the login body (`getAuthenticationRequest`) is the `LoginBody` input: credentials with missing fields null, a null object for the JSON literal `null`, or an IOException.
- The authentication manager, including the password-hash check in `DaoAuthenticationProvider`, is the `authenticationManager` parameter.
- `UserService.getUser` and `Role.getGrantedAuthorities` are the `getUser` and `roleAuthorities` parameters.
- JwtLogin.LoginFilter.DoFilter: the dispatch around `attemptAuthentication` and `successfulAuthentication` belongs to Spring's `AbstractAuthenticationProcessingFilter`. In this model a rejected login leaves the response untouched. The framework's `unsuccessfulAuthentication` (clearing the security context and calling the failure handler, which writes its own response), session strategy and events are not modelled. The URL match is path equality, which is what Ant matching does for a pattern without wildcards. It ignores the path decoding and normalisation that Spring applies first.
- `SecurityConfiguration` (filter-chain wiring, CSRF and session policy, permit-all and ignore lists) and `JwtSecretKeyConfiguration` (HMAC key derivation) are not part of this model.
- The principal's name is never null in this model, so a name that prints as `null` is not modelled.
