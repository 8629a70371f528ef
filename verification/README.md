# Appliance credential lifecycle

A Dafny model of the appliance registry: how an appliance is registered or enrolled, claimed, given a
secret, rotated, logged in to and revoked, over two stores that share no transaction (a database and
the cluster's secrets), with any call able to fail and any number of calls in flight.

## How the model is built

| file | what it is |
|---|---|
| `Persistence.dfy` | the stored records by primary key, and one effect per SQL statement or cluster write |
| `Protocol.dfy` | every handler as a program of single store calls, clock readings and registry calls: `Begin`, `Goto` (control) and `Act` (effect), with the handler's local variables in its program point |
| `Mariadb.dfy`, `WebApp.dfy` | classes: the database, changed in place statement by statement, and the handlers over it; each handler method is proved to be exactly its program of steps |
| `Solo.dfy`, `Outcomes.dfy`, `RoundTrips.dfy` | one call run alone: exactly when it succeeds and what it leaves, and chains of calls through the values they hand out |
| `Answers.dfy` | the same under any interleaving: the answer of every request as a function of what the stores held at its own steps, and what each step writes |
| `Runs.dfy` | calls interleaved step by step, any of which may fail, with a history of what was drawn, published, granted, spent, issued and claimed |
| `Freshness.dfy`, `Credentials.dfy`, `Lifecycle.dfy`, `Login.dfy`, `Creation.dfy` | results under unrestricted interleaving |
| `Serial.dfy`, `Guarantees.dfy` | results for runs in which calls that change the same appliance do not overlap |
| `Commuting.dfy`, `Reordering.dfy` | where only calls on different appliances overlap, interleaving is only an order: any such stretch of a run ends like some order of one call at a time |
| `Expiry.dfy`, `Divergence.dfy` | the service beside one that never deletes for expiry, and exactly when the two answer differently |
| `Reaching.dfy`, `Stranding.dfy`, `Revival.dfy` | two concrete runs, built event by event, in which a comment's or document's promise fails |
| `K8sSecrets.dfy` | the create-or-update of a cluster secret as one atomic put |
| `Tokens.dfy`, `Hostnames.dfy`, `Text.dfy` | bearer headers, generated secrets, token lists, host labels, and the string functions they use |

What the model takes as given:

- a SHA-256 digest determines what was hashed (`Tokens.Hash`), and a constant-time comparison is equality;
- a drawn random value is non-empty hex and differs from all drawn before; a failing random generator is
  the failure of the call that would have followed;
- a use token that passes verification is a pair of user and group; the user registry is an arbitrary
  function from a group and a user to an answer, asked at one instant;
- one integer clock that never goes backwards, and lifetimes chosen per call;
- a store call either takes effect or reports an error, never both; a run starts from empty stores;
- lower-casing is any character map that fixes `[a-z0-9-]` and sends no white space into `[a-z0-9]`;
- a response carries the host label in place of the hostname and tunnel address built from it;
- every update of a cluster object carries the version that was read, and is refused when that is out of date.

"Re-issue" of a claim token (`Request.Reissue`) is the store operation promised at
`internal/persistence/persistence.go:95-98`; no handler offers it.

## Where the code and its documentation differ

- `internal/persistence/persistence.go:17-19` says revoking frees the hostname. It does not:
  `Lifecycle.HostnamesStayDistinct`.
- `internal/persistence/persistence.go:91-93` says `MarkApplianceClaimed` moves an appliance from pending to
  active. It updates by id alone, so a claim in flight can revive a revoked appliance: `Revival.RevokedCanRevive` gives
  such a run, and `Lifecycle.RevokeFinalIffDrained` says exactly when a revoke is final.
- A Revoke that stopped half-way cannot be completed by another one, because setting an unchanged status is
  reported as a missing row: `Outcomes.RevokeSucceedsIff`, `Guarantees.HalfRevokeIsPermanent`. What was
  left behind is inert: `Guarantees.RevokedRefusesAll`, `Guarantees.RevokedIsUnlisted`.
- `internal/appliancewebapp/webapp.go:465-475` never looks at the claim token's expiry, so an exchange code works
  with an expired claim token that nobody has deleted yet (`Outcomes.RedeemSucceedsIff`). With calls that
  overlap, the deletion of an expired token can therefore be observed: `Stranding.OverlapObservesDeletion`
  gives such a run, and `Divergence.ExpiryDeletionUnobservableIff` the exact condition, read off the events themselves.

## Model

| member | source | states |
|---|---|---|
| WebApp.App.Claim | internal/appliancewebapp/webapp.go:354-426 | takes exactly the steps of its program; succeeds exactly for the unexpired token of a pending appliance with no fatal fault, leaving its new secret in both stores, and otherwise answers 401, 404, 409 or 500 as the case is |
| WebApp.App.EnrollRedeem | internal/appliancewebapp/webapp.go:439-525 | the same for redeeming an exchange code, whose pin must match the standing claim token |
| WebApp.App.CheckClaimToken | internal/appliancewebapp/webapp.go:360-378 | refuses, or has found the stored token in time and matching; an expired one is deleted on sight |
| WebApp.App.CheckExchangeCode | internal/appliancewebapp/webapp.go:445-475 | refuses, or has found the stored code in time and its pin equal to the standing claim token |
| WebApp.App.Activate | internal/appliancewebapp/webapp.go:380-408 | the steps Claim and EnrollRedeem share: pending check, secret, hash, active |
| WebApp.App.Publish | internal/appliancewebapp/webapp.go:727-734 | cluster copy first, hash second; a failure of either ends the call |
| WebApp.App.RequireOwningGroup | internal/appliancewebapp/webapp.go:155-168 | the row, or 404 for a missing row and a foreign group alike, or 500 |
| WebApp.App.Revoke | internal/appliancewebapp/webapp.go:529-555 | exactly its program of steps; succeeds exactly for the owning group of an appliance not revoked yet, withdrawing hash, cluster secret and claim token |
| WebApp.App.WithdrawCredentials | internal/appliancewebapp/webapp.go:545-554 | the steps after the status write, of which the last may fail |
| WebApp.App.IssueNewSecret | internal/appliancewebapp/webapp.go:719-744 | the shared tail of both rotations |
| WebApp.App.RotateSecret | internal/appliancewebapp/webapp.go:674-692 | exactly its program of steps; succeeds exactly for the owning group of an active appliance, changing its hash and cluster secret only |
| WebApp.App.RotateOwnSecret | internal/appliancewebapp/webapp.go:700-712 | exactly its program of steps; succeeds exactly for the bearer of the present secret |
| WebApp.App.CheckStoredHash | internal/appliancewebapp/webapp.go:91-105 | refuses, or the presented secret hashes to the stored value |
| WebApp.App.AuthenticateAppliance | internal/appliancewebapp/webapp.go:90-118 | refuses, or returns the row, which is active at the second read |
| WebApp.App.CreateLoginCode | internal/appliancewebapp/webapp.go:563-593 | exactly its program of steps; succeeds exactly for the owning group of an active appliance, with the code stored by its hash |
| WebApp.App.SaveLoginCode | internal/persistence/mariadb/mariadb.go:212-218 | prune by the clock, then insert; the outcome decides the response |
| WebApp.App.RedeemLoginCode | internal/appliancewebapp/webapp.go:603-642 | exactly its program of steps; succeeds exactly for an authenticated bearer, an unexpired code of that appliance and a confirmed member; a found code is gone either way |
| WebApp.App.ResolveIdentity | internal/appliancewebapp/webapp.go:622-641 | expiry, then the registry's answer, after the code is spent |
| WebApp.App.CheckAccess | internal/appliancewebapp/webapp.go:650-669 | exactly its program of steps; an authenticated bearer gets the registry's answer for the user in the path and the appliance's owning group, or 502 if there is none; everyone else 401; nothing changes |
| WebApp.App.CreateApplianceWithRetry | internal/appliancewebapp/webapp.go:174-190 | at most five insert attempts, of which at most the last adds a row: pending, of the given name and group, under the generated label, which no row held |
| WebApp.App.CreateAppliance | internal/persistence/mariadb/mariadb.go:49-59 | insert then read back; a taken label is the one error that is retried |
| WebApp.App.IssueClaimToken | internal/appliancewebapp/webapp.go:194-204 | stores the hash of the drawn token with its expiry, or ends the call |
| WebApp.App.Register | internal/appliancewebapp/webapp.go:209-241 | exactly its program of steps, with the labels `GenerateLabel` yields; it succeeds under the first of five labels that is free, and answers 500 if none is or a call fails |
| WebApp.App.Enroll | internal/appliancewebapp/webapp.go:251-294 | likewise; the code it returns is stored by its hash and pinned to the claim token stored with it |
| WebApp.App.IssueExchangeCode | internal/appliancewebapp/webapp.go:274-293 | stores the hash of the drawn code, pinned to the claim token just stored |
| WebApp.App.PluginGetParams | internal/appliancewebapp/webapp.go:770-786 | 500 for a fault, or every active appliance once, ascending by id, with its own label and name, and no other |
| WebApp.App.FillParams | internal/appliancewebapp/webapp.go:776-783 | fills the response slice in place, one entry per appliance |
| Mariadb.Database.InsertAppliance | internal/persistence/mariadb/mariadb.go:49-53 | a new pending row under the next id, or Duplicate and no change |
| Mariadb.Database.GetAppliance | internal/persistence/mariadb/mariadb.go:61-64 | the row, or NoRows |
| Mariadb.Database.ListAppliancesByStatus | internal/persistence/mariadb/mariadb.go:93-108 | the ids with that status, each once, ascending |
| Mariadb.Database.SetApplianceStatus | internal/persistence/mariadb/mariadb.go:110-123 | NoRows exactly when the row is missing or already has the status |
| Mariadb.Database.MarkApplianceClaimed | internal/persistence/mariadb/mariadb.go:125-138 | active and stamped, whatever the status was; NoRows exactly when the row is missing or already reads so, time stamp included |
| Mariadb.Database.SaveClaimToken | internal/persistence/mariadb/mariadb.go:140-146 | replaces the token of an existing appliance |
| Mariadb.Database.GetClaimToken | internal/persistence/mariadb/mariadb.go:148-155 | the token, or NoRows |
| Mariadb.Database.DeleteClaimToken | internal/persistence/mariadb/mariadb.go:157-160 | the token is gone; no error if there was none |
| Mariadb.Database.SaveEnrollExchangeCode | internal/persistence/mariadb/mariadb.go:162-168 | replaces the code of an existing appliance |
| Mariadb.Database.GetEnrollExchangeCode | internal/persistence/mariadb/mariadb.go:170-177 | the code, or NoRows |
| Mariadb.Database.DeleteEnrollExchangeCode | internal/persistence/mariadb/mariadb.go:179-182 | the code is gone; no error if there was none |
| Mariadb.Database.SetApplianceSecretHash | internal/persistence/mariadb/mariadb.go:184-202 | sets or clears the hash; NoRows only for a missing row, not for an unchanged one |
| Mariadb.Database.GetApplianceSecretHash | internal/persistence/mariadb/mariadb.go:204-210 | the hash or none, or NoRows |
| Mariadb.Database.PruneLoginCodes | internal/persistence/mariadb/mariadb.go:213-215 | keeps exactly the codes whose expiry is not before the cutoff |
| Mariadb.Database.InsertLoginCode | internal/persistence/mariadb/mariadb.go:216-217 | adds the code under its hash, or reports why not |
| Mariadb.Database.ConsumeLoginCode | internal/persistence/mariadb/mariadb.go:220-238 | returns and deletes the code of that appliance, or NoRows and no change |
| Persistence.WithStatus | internal/persistence/mariadb/mariadb.go:93-108 | exactly the ids below the bound with the status, in strictly ascending order |
| Protocol.StepsDown | internal/appliancewebapp/webapp.go:174-190 | every step of every handler brings its end nearer, the retry loop included |
| Solo.AloneResponds | internal/appliancewebapp/webapp.go:174-190 | whatever fails, a call run alone responds within twelve steps |
| Outcomes.ClaimSucceedsIff | internal/appliancewebapp/webapp.go:354-426 | the exact condition of success, the secret then live in both stores, the row active and stamped, the token gone unless its deletion failed; the exact status of every refusal, 401 for header, missing, expired or other token, 404, 409, 500; and exactly what a refused call leaves: the appliance still pending, a secret in one store or both, or an expired token deleted |
| Outcomes.RedeemSucceedsIff | internal/appliancewebapp/webapp.go:439-525 | the same for the second door, success, status and leftovers; the claim token's own expiry does not matter |
| Outcomes.RotateSucceedsIff | internal/appliancewebapp/webapp.go:674-692 | only for the owning group of an active appliance; hash and cluster copy are then the new secret's, and nothing else has changed; a refusal is 404, 409 or 500 as the case is and changes at most the cluster copy |
| Outcomes.RotateOwnSucceedsIff | internal/appliancewebapp/webapp.go:700-712 | only for the bearer of the present secret of an active appliance; a refusal is 401, or 500 for a fault, and changes at most the cluster copy |
| Outcomes.CheckAccessAnswers | internal/appliancewebapp/webapp.go:650-669 | that bearer gets the registry's answer on the owning group and the user in the path, 502 if it cannot be reached; everyone else 401; nothing changes |
| Outcomes.CreateLoginSucceedsIff | internal/appliancewebapp/webapp.go:563-593 | only for the owning group of an active appliance, 404, 409 or 500 otherwise; exactly the expired codes go and the new one comes, or, if the insert fails, only the former |
| Outcomes.RedeemLoginSucceedsIff | internal/appliancewebapp/webapp.go:603-642 | the exact condition of success and the exact status otherwise, 401, 403, 500 or 502, the registry being asked about the code's user and the owning group; a code that was found is gone even if the call was then refused |
| Outcomes.RevokeSucceedsIff | internal/appliancewebapp/webapp.go:529-555 | the exact condition of success, which a second Revoke never meets, 404 or 500 otherwise, and the exact state it leaves, stopped half-way or not |
| RoundTrips.RegisterSucceedsIff | internal/appliancewebapp/webapp.go:27-241 | refused for its labels exactly when all five are taken; under any first free one it adds exactly one pending row and one token and returns both, or answers 500 for a fault and leaves at most the row |
| RoundTrips.EnrollSucceedsIff | internal/appliancewebapp/webapp.go:27-294 | likewise up to the exchange code, which is stored by its hash and pinned to the claim token stored with it; a refusal leaves at most the row, or the row and its token |
| RoundTrips.LandsOrNot | internal/appliancewebapp/webapp.go:174-190 | either all five labels are taken, or exactly one of them is the first free one |
| RoundTrips.RegisterThenClaim | internal/appliancewebapp/webapp.go:206-426 | the token returned by Register, borne in time, claims that appliance and yields the secret both stores hold |
| RoundTrips.EnrollThenRedeem | internal/appliancewebapp/webapp.go:243-525 | so does the code returned by Enroll |
| RoundTrips.ClaimedOnce | internal/appliancewebapp/webapp.go:388-415 | an appliance that is not pending is never claimed, by whatever token or code |
| RoundTrips.ClaimedAdmits | internal/appliancewebapp/webapp.go:86-118 | the secret a claim returned authenticates |
| RoundTrips.RotationReplaces | internal/appliancewebapp/webapp.go:694-712 | after a rotation the new secret is admitted and the old one refused |
| RoundTrips.LoginRoundTrip | internal/appliancewebapp/webapp.go:557-642 | a code redeemed in time by its appliance yields the registry's identity for its user, once: any second redemption is refused |
| Answers.RespondsExactly | internal/appliancewebapp/webapp.go:90-786 | in every run, whatever interleaves, a response is the one answer to what the call found at its own turns: which table each check reads, at which of its steps, and the status it then gives |
| Answers.EveryCallEnds | internal/appliancewebapp/webapp.go:90-786 | that answer is reached within twelve steps from any such findings; past its one check an activation or rotation looks at nothing but faults, missing rows and a stamp already there |
| Answers.StepLeaves | internal/persistence/mariadb/mariadb.go:49-238 | each step writes at most one entry, found by its key, whatever status or hash stands there |
| Freshness.AlwaysFresh | internal/tokens/tokens.go:43-137 | every stored hash was published, no generated value still held by a call has been, no two calls hold the same, and every stored secret hash is of a secret generated for that appliance |
| Credentials.NeverReturns | internal/appliancewebapp/webapp.go:79-84 | a published hash that is not current at an appliance never becomes current again |
| Credentials.RetiredSecretStaysRetired | internal/appliancewebapp/webapp.go:79-84 | an overwritten or cleared secret hash reappears nowhere, whatever interleaves |
| Credentials.HashesDoNotCross | internal/tokens/tokens.go:131-137 | a stored hash is never that of another appliance's secret |
| Credentials.ForeignSecretRefused | internal/appliancewebapp/webapp.go:90-105 | a call that bears another appliance's secret never gets past its first check |
| Credentials.PassedCheck | internal/appliancewebapp/webapp.go:380-390 | a Claim or EnrollRedeem that publishes a secret has itself read the appliance as pending |
| Credentials.PinnedThroughout | internal/appliancewebapp/webapp.go:465-475 | a pin that matches at the end was in place at every state since the code was stored |
| Credentials.RedeemedCodeWasPinned | internal/appliancewebapp/webapp.go:432-475 | a successful EnrollRedeem bore the stored code, and its pinned token stood at every state up to the comparison, re-issue included |
| Credentials.SupersededCodeIsDead | internal/appliancewebapp/webapp.go:435-438 | once the pinned token has been replaced or deleted, every later comparison with that pin refuses |
| Lifecycle.RowStep | internal/persistence/mariadb/mariadb.go:110-138 | all that any step can do to an existing row: name, label and group stay, and status changes only by two named steps |
| Lifecycle.AlwaysRegistry | migrations/V001.sql:16 | in every run ids are below the next id and labels are pairwise distinct |
| Lifecycle.RowsKeepIdentity | internal/persistence/mariadb/mariadb.go:49-59 | a row keeps name, label and group for ever, and pending is never re-entered |
| Lifecycle.HostnamesStayDistinct | internal/hostnames/hostnames.go:45-47 | the hostnames of all appliances ever created, revoked ones included, are pairwise distinct |
| Lifecycle.ActiveWriterSawPending | internal/appliancewebapp/webapp.go:388-405 | every write of active belongs to a call that itself read pending |
| Lifecycle.ActiveWritesDrain | internal/persistence/mariadb/mariadb.go:125-138 | once out of pending, later writes of active number at most the calls then past their check |
| Lifecycle.AnyTurn | internal/appliancewebapp/webapp.go:354-744 | a call that has not responded can always take its next step, at any later time and with or without a fault |
| Lifecycle.RevokeFinalIffDrained | internal/appliancewebapp/webapp.go:527-555 | a revoked appliance stays revoked in every continuation if and only if no claim of it is past its check |
| Creation.OneRowPerCall | internal/appliancewebapp/webapp.go:174-190 | whatever else is in flight, a call adds at most one appliance row |
| Creation.FiveAttempts | internal/appliancewebapp/webapp.go:27-189 | and tries at most five times |
| Creation.ReturnsItsRow | internal/appliancewebapp/webapp.go:170-294 | a Register or Enroll that succeeds returns the row it added: pending, of its own name and group, under a label no row held, and still its own later |
| Login.AlwaysAgrees | internal/persistence/mariadb/mariadb.go:212-238 | every stored login code is an unspent grant of the CreateLoginCode that returned it; every redeemer past its consume holds such a grant |
| Login.LoginsAreInjective | internal/appliancewebapp/webapp.go:595-642 | two successful redemptions belong to two different CreateLoginCode calls |
| Login.LoginAgreement | internal/appliancewebapp/webapp.go:557-642 | a successful redemption matches one earlier CreateLoginCode for that code, user and appliance, by a holder of the owning group who read active; it was redeemed in time, with the registry's confirmation |
| Login.IssuerSawActive | internal/appliancewebapp/webapp.go:573-579 | a login code is only issued after its issuer read the appliance as active and its own group's |
| Login.SpentStaysSpent | internal/persistence/mariadb/mariadb.go:220-238 | a consumed code never returns to the table and logs in nobody but its consumer |
| Login.ConsumingSpends | internal/appliancewebapp/webapp.go:614-624 | passing the consume is what spends a code, before expiry and membership are looked at |
| Serial.SoundStep | internal/appliancewebapp/webapp.go:392-416 | one step of any writer, failing or not, keeps its appliance's row, cluster secret and history consistent |
| Serial.AlwaysSound | internal/appliancewebapp/webapp.go:714-718 | so they are at every state of every run without overlap |
| Guarantees.LastIssuedIsLive | internal/appliancewebapp/webapp.go:714-744 | while an appliance is active exactly one secret hashes to the stored value: that of the most recent successful response |
| Guarantees.FinishingSecretIsLive | internal/appliancewebapp/webapp.go:405-425 | between activation and response it is the secret about to be returned |
| Guarantees.ActiveHasSecret | internal/appliancewebapp/webapp.go:397-408 | at every instant an active appliance has a cluster secret |
| Guarantees.ListingIsExact | internal/appliancewebapp/webapp.go:770-783 | the plugin's list names every active appliance once, ascending, with its own label and name, and no other |
| Guarantees.ListedHaveSecrets | README.md:249-250 | every appliance in a returned list had its cluster secret at that instant |
| Guarantees.StaleMeansLastWriteFailed | internal/appliancewebapp/webapp.go:727-734 | the history's flag means that the last rotation to reach its hash write failed there |
| Guarantees.StoresDivergeExactly | internal/appliancewebapp/webapp.go:714-734 | the two stores agree on an active appliance if and only if that did not happen |
| Guarantees.RotationRestoresAgreement | internal/appliancewebapp/webapp.go:717-734 | the next rotation to complete makes them agree again, on the secret it returns |
| Guarantees.IssuedIsReturned | internal/appliancewebapp/webapp.go:417-425 | the history's secrets of an appliance are those its successful responses returned, in their order |
| Guarantees.ClaimedAtMostOnce | internal/appliancewebapp/webapp.go:388-415 | Claim and EnrollRedeem together succeed at most once per appliance, whatever fails |
| Guarantees.StatusMovesForward | internal/persistence/persistence.go:10-20 | status only moves from pending to active to revoked, or from pending to revoked |
| Guarantees.AcceptedWasLive | internal/appliancewebapp/webapp.go:90-118 | two unsynchronised reads: the accepted secret is the one the request bears, it matched at the hash read, and if some response had returned it the appliance was active at that instant |
| Guarantees.RevokedRefusesAll | internal/appliancewebapp/webapp.go:529-555 | once the status write has landed and is final (no overlap, or just no claim past its check), no call on that appliance succeeds that is opened later or was then still before its check, between its two authentication reads included, whatever was left behind |
| Guarantees.LateCodeIsIssued | internal/persistence/mariadb/mariadb.go:212-218 | a CreateLoginCode past its check by then can still store and return its code |
| Guarantees.LateCodeNeedsEarlyRedeemer | internal/appliancewebapp/webapp.go:603-642 | but a code first stored after the revoke logs in nobody, except through a redemption already authenticated and about to consume when the revoke landed |
| Guarantees.RevokedIsUnlisted | internal/appliancewebapp/webapp.go:770-783 | nor does any later list name it |
| Guarantees.HalfRevokeIsPermanent | internal/persistence/mariadb/mariadb.go:110-123 | a revoked appliance's row and cluster secret never change again once no call on it is past its check |
| Commuting.MovesCommute | internal/appliancewebapp/webapp.go:354-744 | steps of calls on different appliances, at least one of them not on login codes, commute: same stores, same responses |
| Commuting.InterleavingIsSerial | internal/appliancewebapp/webapp.go:354-744 | an interleaving in which only such calls overlap ends like the order that groups each call's steps |
| Commuting.GroupedIsOneAtATime | internal/appliancewebapp/webapp.go:354-744 | that order runs one call at a time |
| Commuting.GroupedKeepsCalls | internal/appliancewebapp/webapp.go:354-744 | and takes each call's own steps, all of them and in order |
| Reordering.DisjointIsOneAtATime | internal/appliancewebapp/webapp.go:354-744 | the three in one, for paths of the system: if only such calls overlap, the stores and responses are those of an order of one call at a time that gives each call its own turns and inputs |
| Reordering.StretchIsOneAtATime | internal/appliancewebapp/webapp.go:354-744 | so for any such stretch of a run, the whole run included: registrations and other calls may take their turns alone, have finished, or stand still |
| Reordering.SerialisedIsOneAtATime | internal/appliancewebapp/webapp.go:354-744 | in particular where only writers overlap and those of the same appliance do not |
| Divergence.KeeperShadows | internal/persistence/mariadb/mariadb.go:212-218 | until some call is stranded, a service that never deletes for expiry keeps, of every table, what the real one has plus rows already expired, and a claim token only where expiry was the reason for its deletion |
| Divergence.StrandedMeans | internal/appliancewebapp/webapp.go:465-475 | stranded by the events of the run is the same as lacking a claim token that the other service still has |
| Divergence.PastPinForGood | internal/appliancewebapp/webapp.go:477-524 | an EnrollRedeem past its pin comparison is never answered 401, whatever it meets |
| Divergence.ExpiryDeletionUnobservableIff | internal/appliancewebapp/webapp.go:372-375 | the two answer every call alike if and only if no EnrollRedeem that has checked its code reads the claim table after a Claim deleted its token for expiry; otherwise some response is one the other service can finish without and never gives |
| Divergence.SerialNoneStranded | internal/appliancewebapp/webapp.go:457-475 | calls that do not overlap are never stranded |
| Divergence.ExpiryDeletionUnobservable | internal/appliancewebapp/webapp.go:372-375 | so without overlap deletion on expiry is never observed, and rows and secrets are equal throughout |
| Stranding.OverlapObservesDeletion | internal/appliancewebapp/webapp.go:457-475 | with overlap it is: a spelled-out run gives a response that the service without such deletion never gives to that call |
| Revival.RevokedCanRevive | internal/persistence/mariadb/mariadb.go:125-138 | a spelled-out run reaches a revoked appliance with a Claim past its check, from where it can become active again |
| K8sSecrets.SecretNameReads | internal/k8ssecrets/k8ssecrets.go:34-36 | the secret's name is "cloud-connect-secret-" and the appliance's id in decimal |
| K8sSecrets.SecretNameInjective | internal/k8ssecrets/k8ssecrets.go:34-36 | so it determines the appliance |
| K8sSecrets.PutSetsOneKey | internal/k8ssecrets/k8ssecrets.go:57-70 | a put sets the key "auth" of one object; its other keys and all other objects stay |
| K8sSecrets.WriteSucceedsIff | internal/k8ssecrets/k8ssecrets.go:57-72 | whatever the cluster holds at its three steps, the call succeeds exactly if the name is free at the first, or the object is there at the second and unchanged at the third |
| K8sSecrets.WriteRefinesPut | internal/k8ssecrets/k8ssecrets.go:43-72 | whatever other clients create, update or delete meanwhile, a call that returns nil put the value at exactly one instant within it, and otherwise changed nothing |
| K8sSecrets.WriteSetsOneSecret | internal/k8ssecrets/k8ssecrets.go:43-72 | seen by appliance, that instant sets the one appliance's secret and leaves the others', and the call's other steps change nothing |
| K8sSecrets.UndisturbedRuns | internal/k8ssecrets/k8ssecrets.go:43-72 | the steps taken without interference are such a call |
| K8sSecrets.OwnStepsTouchOneAppliance | internal/k8ssecrets/k8ssecrets.go:43-72 | no step of it changes another appliance's secret |
| K8sSecrets.Client.WriteApplianceSecret | internal/k8ssecrets/k8ssecrets.go:43-72 | takes exactly those steps, fails exactly when one of its calls fails, and otherwise sets that appliance's secret and no other |
| K8sSecrets.Client.DeleteApplianceSecret | internal/k8ssecrets/k8ssecrets.go:74-80 | that appliance's secret is gone and no other; no error if there was none |
| Text.DecimalIsNumeral | internal/k8ssecrets/k8ssecrets.go:34-36 | the decimal rendering of an id, read from the left digit by digit, denotes that id, without leading zeros |
| Tokens.ApplianceSecretReads | internal/tokens/tokens.go:131-137 | a secret is "appliance-", the id in decimal, a colon and the random part |
| Tokens.ApplianceSecretInjective | internal/tokens/tokens.go:131-137 | so it determines its appliance and its random part |
| Text.SpacesListed | internal/tokens/tokens.go:36 | the white space that trimming removes, one by one |
| Tokens.BearerTokenIff | internal/tokens/tokens.go:32-37 | a header yields x if and only if it is "Bearer " and x, padded by white space, and x has none at its ends |
| Tokens.NoBearerIff | internal/tokens/tokens.go:32-35 | and yields nothing exactly when it does not begin with "Bearer " |
| Tokens.BearerRoundTrip | internal/tokens/tokens.go:32-37 | a value without white space at its ends survives the header |
| Tokens.SecretSurvivesHeader | internal/tokens/tokens.go:114-118 | so does every generated secret |
| Tokens.ParseTokenList | internal/tokens/tokens.go:87-96 | the trimmed, non-empty parts in order |
| Tokens.CheckServiceTokens | internal/tokens/tokens.go:101-112 | succeeds exactly when the header is a Bearer header of one of the tokens |
| Tokens.ParseOfJoined | internal/tokens/tokens.go:83-96 | parsing two lists joined by a comma concatenates their parses |
| Tokens.ListAcceptsExactly | internal/tokens/tokens.go:83-112 | a header is accepted exactly when it is a Bearer header of a non-empty trimmed part of the raw list |
| Tokens.AppendingKeepsTokens | internal/tokens/tokens.go:83-86 | a list extended by a comma and more accepts what either part accepts, and nothing else |
| Tokens.ParseInvertsJoin | internal/tokens/tokens.go:87-96 | joining clean tokens and parsing gives them back |
| Hostnames.SanitizeMeetsSpecification | internal/hostnames/hostnames.go:26-35 | five passes, one sentence: lower-case, join the runs of letters and digits by single dashes, take the longest prefix of at most 40 characters that does not end in a dash; "appliance" if there is none |
| Hostnames.NoLongerCut | internal/hostnames/hostnames.go:30-32 | and no longer prefix would do |
| Hostnames.LettersListed | internal/hostnames/hostnames.go:15 | the letters that are kept, one by one |
| Hostnames.DigitsListed | internal/hostnames/hostnames.go:15 | and the digits |
| Hostnames.TrimSpaceRedundant | internal/hostnames/hostnames.go:26 | the first trim changes nothing |
| Hostnames.SanitizeIsClean | internal/hostnames/hostnames.go:26-35 | the result is non-empty, at most 40 long, without a dash at an end or two in a row |
| Hostnames.SanitizeIdempotent | internal/hostnames/hostnames.go:26-35 | sanitising twice is sanitising once |
| Hostnames.LabelReads | internal/hostnames/hostnames.go:41 | a label is the sanitised name, a dash and the suffix |
| Hostnames.LabelIsDnsSafe | internal/hostnames/hostnames.go:20-42 | at most 47 characters, and a label under section 2.3.1 of RFC 1035 as relaxed by section 2.1 of RFC 1123 |
| Hostnames.HostnameReads | internal/hostnames/hostnames.go:45-47 | a hostname is the label, a dot and the base domain |
| Hostnames.FullHostnameInjective | internal/hostnames/hostnames.go:45-47 | under one base domain the hostname determines the label |

## Left out

- Divergence.ExpiryDeletionUnobservableIff: is stated for runs without re-issue and with every exchange code expiring no later than its claim token; with re-issue a late deletion by id can remove the newer token.
- RoundTrips.RegisterThenClaim: chains calls that do not overlap with others; what other calls may do in between is the subject of the results over runs.
- Guarantees.RevokedRefusesAll: speaks of calls before their check when the status write lands; a login redemption or access check past its two reads, and a CreateLoginCode past its own check (`Guarantees.LateCodeIsIssued`), still complete.
- Reordering.DisjointIsOneAtATime: reorders no call that overlaps a registration, a re-issue or a listing, and no two overlapping calls on login codes: their steps do not commute in general, since they draw ids and labels from one table, read all rows, or prune each other's codes.
- K8sSecrets.Client.WriteApplianceSecret: is one step in the handlers' programs, which `K8sSecrets.WriteSetsOneSecret` justifies; labels and other metadata of the object are not modelled.
- WebApp.App.PluginGetParams: the service token is checked by `Tokens.CheckServiceTokens`, the rate limiter in front of it is not part of this model.
- Mariadb.Database.InsertAppliance: an auto-increment id is not used up by a rejected duplicate.
- HTTP routing, message texts, logging, tracing and configuration: no property depends on them.
- JWT verification and the user-registry client: represented by a user and group pair and an oracle.
- SHA-256, constant-time behaviour and the quality of randomness: taken as injective, equality and fresh.
- Time stamps stored with less precision than the clock, and the clock skew between service and database.
- ListAppliances with its filters, creation and last-seen times: plain reads of fields no other result depends on.
- The no-op secret writer used outside a cluster, and the choice between the two writers.
- Calls that take effect and yet report an error, and responses lost on the way back.
- Rows that predate `migrations/V003.sql`, whose secret hash is missing until the next rotation.
