# A verified model of Talenro device authorization

Talenro's control plane turns an enrollment grant into a device, an authorization and a family of refresh tokens. The family then
rotates, is compromised when a used token comes back, or is revoked. This project models that protocol in Dafny, together with the
layers it stands on, and proves what holds in every reachable state and over every run.

How the model is laid out:

- **Tables and transactions.** `Schema` holds the PostgreSQL tables as one value. `Identity` and `DeviceTx` give each transaction as a
  function from the database to the database it commits and the answer it gives. `Store` and `Reads` are the same transactions in the
  source's own form: an object whose methods are the SQL statements, transactions that run them in source order with an explicit
  rollback, and the loops over locked rows (`Rows`). Each is proved to do exactly what its function says.
- **The protocol.** `Protocol` is a state machine of seventeen actions: accounts, sessions, grants, email verification, registration,
  revocation, challenges, the separate steps of any number of concurrent rotation calls, pruning of idempotency records, and the
  passage of time. A transaction may fail before its commit, or commit while the caller only sees an error. A run is any sequence of actions.
- **Invariants.** `Effects` names the ways an action can change the database. `Chains`, `History`, `Records`, `Safety`, `Attempts`,
  `Steps`, `Trial`, `Graph` and `Ties` prove one group of invariants each. `Theorems`, `Outcomes`, `Calls`,
  `Possession`, `Rechecks`, `Registration`, `Revocations`, `Sessions`, `Devices`, `Lapse` and `Deadlines` hold the main results.
- **Locks.** `Locks`, `Interleaving`, `Concurrency` and `Histories` run rotation transactions statement by statement under row locks, each statement
  with its own snapshot, against every other transaction of the system. `LockOrder` orders all blocking locks.
- **Smaller cores.** `Idempotency`, `Bytes`, `ChallengeCodec`, `ChallengeStore`, `Transcripts`, `RateLimit`, `Reporter`, `Outbox`, `Email`.

Conventions. Instants are integer nanoseconds. An identifier or digest is a number, with zero for the nil value. Digests, signatures and
sealed fields are symbolic and so injective. New token digests are fresh. The clock, random draws, verified passwords and the outcomes of
networks and commits are parameters or actions.

Four things the code does that its prose does not say:

- A trial enrollment that passes every check is refused unless the account was created on a whole second
  (internal/deviceauth/register.go:869), while accounts are created with the raw clock (internal/identity/register.go:190).
  `Deadlines.TrialEnrollsExactly` gives the exact condition and `Deadlines.FractionalAccountIsRefused` a reachable example.
- The retention of rotation records equals the absolute lifetime of a family, so a retry is recognised for as long as the family can
  rotate, provided records are not pruned past the clock reading of a call still in flight. Nothing in the repository prunes them;
  `Calls.RetriesAreSafe` covers that case and `Theorems.RetriesNeverCompromise` the general one.
- Email verification compares the end of a trial with the clock reading its transaction started with. One that waits for its locks past
  that end still activates the authorization (`Lapse.StaleVerificationRevives`); `Lapse.ActivatedExactly` gives the exact condition.
- The rate limiter computes its key for one instant and counts at another. A script delayed past the life of its key lets one call too
  many through (`RateLimit.DelayedScriptExceeds`); `RateLimit.CounterCounts` gives the exact condition under which the count is right.

## Model

| member | source | states |
|---|---|---|
| `Theorems.FamiliesAreChains` | internal/deviceauth/rotate.go:292-381 | In every reachable state the refresh tokens of a family form one chain by previous digest, all but the newest used, the newest active exactly while the family is; the version is the chain length plus one for a compromise plus one for a revocation. |
| `Chains.ChainExtends` | internal/store/deviceauth.sql.go:808-813 | Marking the newest token used and inserting its successor gives a chain longer by one. |
| `Chains.ChainRetires` | internal/store/deviceauth.sql.go:892-915 | Retiring a family turns exactly its newest token to revoked and keeps the version count. |
| `Chains.UniqueSuccessor` | internal/deviceauth/rotate.go:353-371 | A refresh token has at most one successor. |
| `Theorems.LifetimesHold` | internal/deviceauth/rotate.go:538-574 | In every reachable state access expires strictly before idle and idle before absolute, no access token passes a running trial, and over any run the absolute expiry of a family never moves. |
| `Safety.RotationTimesExactly` | internal/deviceauth/rotate.go:538-556 | A valid authority is refused a rotation exactly in the last ten minutes of its family; otherwise access gets its full time, cut at the trial's end, and idle as much as fits inside the absolute expiry. |
| `Outcomes.HonestRotationSucceeds` | internal/deviceauth/rotate.go:292-381 | A proved call with the live token of a graph in order gets its successor pair, and the successor is then the live token of the same family. |
| `Theorems.RecordsAreComplete` | internal/deviceauth/postgres_repository.go:44-77 | No committed idempotency record is in progress, and every stored response passes the decoder of its operation. |
| `Calls.DeviceStepsCommitWithRecord` | internal/deviceauth/rotate.go:191-250 | Every step of a registration, rotation or revocation commits nothing, or commits together with one new completed record and leaves all older records alone. |
| `Theorems.SuccessfulRetriesAgree` | internal/deviceauth/rotate.go:691-724 | All calls that present one refresh token and succeed return equal tokens, and that token has a single successor. |
| `Theorems.RetriesNeverCompromise` | internal/deviceauth/rotate.go:623-689 | A step of a call whose token only its own retries present never compromises the family, when its clock reading is not older than the last pruning. |
| `Theorems.OnlyPrunedRetriesCompromise` | internal/deviceauth/rotate.go:219-235 | If a retry does compromise, the record of the rotation is gone, its clock reading lies before the end of the family and that end at or before the pruning cut-off. |
| `Theorems.RetriesCompromiseExactly` | internal/deviceauth/rotate.go:623-689 | A retry that presents a used token under a key that holds nothing but the record of that token's rotation compromises the family if and only if that record is gone. |
| `Calls.RetriesAreSafe` | internal/deviceauth/rotate.go:191-272 | In every run without pruning, such a call never compromises the family, however its retries interleave, stall and fail. |
| `Outcomes.RetryReplays` | internal/deviceauth/rotate.go:305-319 | Once a call succeeded, any retry of it before the family expires returns the same tokens and changes nothing. |
| `Calls.OneProofPerChallenge` | internal/deviceauth/redis_challenge_store.go:92-139 | No two calls of any run get past the same challenge. |
| `Calls.RotationIsProved` | internal/deviceauth/rotate.go:250-291 | Only a call that is signed for with the device's key over a challenge issued for its token rotates. |
| `Possession.RotationIsSigned` | internal/deviceauth/rotate.go:274-284 | In every run, whenever a token gets a successor, the call is signed with the signing key stored for the device behind that token, over the bytes issued under its challenge for that token, the family and the nonce; that challenge had not expired and is spent. |
| `Possession.IssuedExactly` | internal/deviceauth/register.go:187-315 | A challenge comes on the books only by being issued for an admitted live token, for two minutes and never past the end of a trial. |
| `Possession.IssuedForever` | internal/deviceauth/redis_challenge_store.go:65-89 | What was issued under an identifier never changes, also after it was consumed. |
| `Possession.AdmittedExactly` | internal/deviceauth/rotate.go:394-528 | In every reachable state a presented token is admitted exactly by its own state and deadline, the family, the device and the standing of the account. |
| `Possession.CallSucceedsExactly` | internal/deviceauth/rotate.go:156-392 | A whole call with the live token of a standing device ends with the successor tokens, all fields written out, if and only if its signature is the device's over the challenge, and with an authentication failure otherwise. |
| `Rechecks.ChallengeStepExactly` | internal/deviceauth/rotate.go:250-291 | In every reachable state the challenge step removes the key unless the command never ran, and lets exactly an unexpired challenge for the token and nonce with the device's signature through. |
| `Rechecks.RotationFindsWhatItSaw` | internal/deviceauth/rotate.go:530-536 | A rotation commits only while the authorization is exactly the row its preflight saw. |
| `Rechecks.PreflightExactly` | internal/deviceauth/rotate.go:191-249 | Under a fresh key the preflight lets exactly a live token through, compromises exactly on a reused one, and otherwise refuses and changes nothing. |
| `Rechecks.ReclassifyExactly` | internal/deviceauth/rotate.go:623-689 | After a failed challenge step a reused token still compromises; otherwise an ambiguous reply leaves the outcome open and a definite one refuses, and neither changes anything. |
| `Rechecks.FinalExactly` | internal/deviceauth/rotate.go:292-381 | The final transaction rotates exactly a live token whose authorization is the one seen before and whose family is not in its last ten minutes, and returns the successor tokens. |
| `Rechecks.RotationKeyAnswers` | internal/deviceauth/rotate.go:691-724 | A rotation key on record answers every transaction alike: unavailable once expired, conflict to another request, the stored tokens or 401 to its own, changing nothing. |
| `Rechecks.RegistrationKeyAnswers` | internal/deviceauth/register.go:434-508 | The same for a registration key. |
| `Rechecks.RevocationKeyAnswers` | internal/deviceauth/revoke.go:75-103 | The same for a revocation key. |
| `Calls.LostReplyIsNoRefusal` | internal/deviceauth/rotate.go:623-689 | In any continuation without pruning, a call whose challenge reply was lost ends in an authentication failure only with a 401 on record for its own request. |
| `Calls.RecordStays` | internal/deviceauth/postgres_repository.go:44-77 | Without pruning a committed idempotency record never changes or disappears. |
| `Outcomes.ReuseCompromises` | internal/deviceauth/rotate.go:576-621 | A used token under a fresh key, even past the idle deadline, commits one compromise that revokes exactly the one live token, with one event carrying the new version, one security record and a stored 401, and nothing else. |
| `Outcomes.EndedForever` | internal/deviceauth/rotate.go:498-505 | A compromised or revoked family never again rotates or authorizes, in any continuation. |
| `Outcomes.LiveToken` | internal/store/deviceauth.sql.go:892-896 | An active family has exactly one active token, and revoking the active ones revokes just that one. |
| `Outcomes.RevokedGraph` | internal/deviceauth/revoke.go:104-158 | A committed revocation revokes the authorization, the device, every family and every bound session together, and emits the authorization's new version. |
| `Outcomes.RevokedForever` | internal/deviceauth/token.go:154-178 | After that, in every continuation, nothing leaves the revoked state, no token of the device rotates and no access token of it authorizes. |
| `Revocations.RevokesExactly` | internal/deviceauth/revoke.go:104-158 | Under a fresh key a revocation is answered as done exactly when the account is verified, its session belongs to it, is active and unexpired in both instants, and the device is its own and not revoked; then it revokes the whole graph, row by row, and otherwise it fails and changes nothing. |
| `Revocations.RevokedTogether` | internal/deviceauth/revoke.go:112-134 | In every reachable state a device, its authorization and its families are revoked together or not at all. |
| `Revocations.RevocationReplays` | internal/deviceauth/revoke.go:75-103 | For ninety days, in any continuation without pruning, the same request under the same key is answered as done, any other with a conflict, and neither changes anything. |
| `Outcomes.RotationReplacesAccess` | internal/store/deviceauth.sql.go:930-936 | Rotation leaves the replaced access token with no family. |
| `Outcomes.DeadAccessForever` | internal/store/deviceauth.sql.go:263-273 | An access token that is no family's current one never authorizes again, in any continuation. |
| `History.RunMovesForward` | internal/store/deviceauth.sql.go:835-915 | Over any run rows never disappear, retired rows never change, and what identifies a row is fixed. |
| `Devices.DeviceIsWhole` | internal/deviceauth/register.go:434-508 | Every reachable device has a consumed grant naming it, an authorization with a policy, a family grown from a root token, and a bound session. |
| `Devices.DevicePartsAreUnique` | internal/store/deviceauth.sql.go:95-100 | Each of these belongs to exactly one device and a device has exactly one of each. |
| `Devices.GrantIsSingleUse` | internal/store/deviceauth.sql.go:95-100 | A consumed grant names its device for ever and never enrols again. |
| `Registration.RegistersExactly` | internal/deviceauth/register.go:434-508 | Under a fresh key a registration succeeds exactly for an unused, unexpired grant of a live unbound session of an account that is verified or on its first whole-second trial, with new identifiers and keys; then it leaves exactly the rows of one device, all fields written out, and otherwise it changes nothing. |
| `Registration.RegisteredDeviceWorks` | internal/deviceauth/register.go:573-580 | The returned access token authorizes exactly until ten minutes later or the end of the trial, and the returned refresh token is the live root of the family, admitted for thirty days or until the end of the trial. |
| `Registration.RegistrationReplays` | internal/deviceauth/register.go:434-508 | For a day, in any continuation without pruning, the same request under the same key gets the same tokens, any other a conflict, and neither changes anything. |
| `Registration.KeysAndTrialsAreUnique` | db/migrations/00003_deviceauth.sql:30-48 | In every reachable state the devices of a principal share no key, and a principal has at most one trial. |
| `Devices.SnapshotAccepted` | internal/deviceauth/token.go:225-261 | The policy stored at registration is accepted whenever the authorization's marker is, during a trial and after activation. |
| `Devices.AuthorizesExactly` | internal/deviceauth/token.go:180-202 | An access token authorizes exactly while it is current and unexpired on an active family and device of an account that is verified, or inside the day of its trial; all other checks hold of every reachable state. |
| `Devices.BundlePolicy` | internal/deviceauth/token.go:218-223 | A device on a running trial is authorized for the snapshot of its trial, every other one for the standard policy. |
| `Lapse.ActivatedExactly` | internal/store/deviceauth.sql.go:18-30 | In any run a provisional authorization becomes active if and only if a verification of its owner commits with a clock reading at or before the end of the trial. |
| `Lapse.LapsedNeverAuthorizes` | internal/deviceauth/token.go:154-178 | Unless such a verification commits, no bundle request and no rotation whose clock reading is at or past the end of the trial succeeds for that authorization, in any continuation. |
| `Lapse.StaleVerificationRevives` | internal/identity/email_verification.go:191-246 | A verification that read the clock before the trial ended and commits after it activates the authorization all the same. |
| `Lapse.LapseIsReachable` | internal/identity/email_verification.go:191-246 | A state in which that can happen is reachable: the trial is over, the authorization provisional and the account unverified. |
| `Deadlines.OneCutOff` | internal/identity/email_verification.go:605-631 | Every session, refresh token, grant and provisional authorization of an unverified account carries creation plus 24 hours. |
| `Trial.IssuedTimes` | internal/identity/email_verification.go:564-603 | Session times are ordered, and a trial session ends exactly at the cut-off. |
| `Trial.RefreshKeeps` | internal/identity/session.go:1190-1224 | Rotating an account session keeps the cut-off on it and on its tokens. |
| `Sessions.SessionsHaveOneLiveToken` | internal/identity/session.go:753-780 | In every reachable state an account session has at most one live refresh token, and one that stands has exactly one. |
| `Sessions.RefreshesExactly` | internal/identity/session.go:753-802 | A live token of an active session becomes used and gets exactly one successor and access token with the drawn digests; a used one, even past its idle deadline, compromises its session and revokes exactly its live token; anything else changes nothing. |
| `Sessions.EndedForever` | internal/identity/session.go:1426-1446 | A compromised or revoked session never authenticates again and none of its tokens does anything, in any continuation. |
| `Sessions.SignsInExactly` | internal/identity/session.go:157-191 | Signing in issues one session of ten minutes, thirty days and ninety days, each cut at the end of a trial, exactly for an account that may hold authority. |
| `Sessions.AuthenticatesExactly` | internal/identity/session.go:357-400 | An access token is accepted exactly while its account may hold authority, its session stands and both deadlines lie ahead. |
| `Sessions.GrantsExactly` | internal/identity/email_verification.go:419-545 | A grant is made exactly for the owner of a live session, for ten minutes, and during a trial as a trial grant that ends with it. |
| `Sessions.VerifiesExactly` | internal/identity/email_verification.go:178-260 | After a committed verification the account is active, exactly its trial authorizations unexpired at the clock reading are activated, every session that stands is accepted until its own deadlines, and nothing else changes. |
| `Sessions.EndsExactly` | internal/store/identity.sql.go:1282-1295 | Ending sessions revokes exactly those of them that stand, and the live token of each. |
| `Trial.GrantKeeps` | internal/identity/email_verification.go:419-545 | A grant made during a trial carries the cut-off and never outlasts it. |
| `Trial.VerifyKeeps` | internal/deviceauth/postgres_repository.go:80-103 | Verifying the email address keeps every deadline consistent while it activates the authorization. |
| `Deadlines.AuthenticatesExactly` | internal/identity/session.go:357-400 | A session of an unverified account authenticates exactly while the trial runs, the session stands and its access token is unexpired: the equality checks refuse nothing the code issued. |
| `Deadlines.RefreshesExactly` | internal/identity/session.go:1426-1446 | The same for its refresh tokens. |
| `Deadlines.EnrollsExactly` | internal/identity/postgres_repository.go:149-169 | The same for its grants, which also demand that the account has no device yet; the enrollment carries the cut-off. |
| `Deadlines.NothingAfterCutOff` | internal/identity/email_verification.go:622-631 | From the cut-off on no session, grant, refresh token or device of a never-verified account is accepted. |
| `Deadlines.TrialEnrollsExactly` | internal/deviceauth/register.go:860-878 | A trial enrollment that passed every check succeeds if and only if the account was created on a whole second. |
| `Deadlines.FractionalNeverEnrolls` | internal/deviceauth/register.go:869 | Every provisional authorization of any run belongs to an account created on a whole second. |
| `Deadlines.FractionalAccountIsRefused` | internal/identity/register.go:190 | A reachable account one nanosecond past the second holds a valid trial grant and is refused a device. |
| `Rows.SameRowsExactly` | internal/deviceauth/register.go:761-772 | Comparing two ordered listings position by position decides whether two tables hold the same rows for those families. |
| `Rows.SameRefreshSet` | internal/deviceauth/register.go:761-772 | The comparison loop returns true exactly for equal listings. |
| `Rows.Presented` | internal/deviceauth/rotate.go:513-527 | The loop over locked rows accepts exactly strictly ascending rows of the family that hold the presented token in its state. |
| `Rows.PresentedExactly` | internal/deviceauth/register.go:741-759 | Over the family's own listing it asks exactly whether the token is there in that state. |
| `Rows.SelectRows` | internal/store/deviceauth.sql.go:737-742 | The listing of a family holds all its rows and nothing else, ascending by hash. |
| `Rows.SelectFamilies` | internal/store/deviceauth.sql.go:698-703 | The listing of an authorization's families, ascending by identifier. |
| `Rows.StableFamilies` | internal/deviceauth/revoke.go:286-297 | True exactly for a non-empty ascending list of unrevoked families of the authorization. |
| `Rows.SortRows` | internal/deviceauth/revoke.go:312-318 | The in-place insertion sort leaves a sorted permutation, strictly ascending when the hashes are distinct. |
| `Rows.CollectRows` | internal/deviceauth/revoke.go:184-193 | The refresh rows of all families, collected family by family and sorted, are all of them, each once, ascending by hash. |
| `Rows.RowsWithin` | internal/deviceauth/revoke.go:407-417 | The loop over refresh rows accepts exactly strictly ascending rows of the given families. |
| `Store.LockRefreshAuthority` | internal/deviceauth/rotate.go:394-486 | Discovering, locking, rediscovering, validating and listing again yields exactly the valid authority behind the token, and never a skew when nothing runs beside it. |
| `Store.ValidRefreshAuthority` | internal/deviceauth/rotate.go:488-528 | True exactly when the authority is valid, the two listings agree and hold the token in its state. |
| `Store.LockRevocation` | internal/deviceauth/revoke.go:162-284 | Valid exactly when the device's graph can be revoked by this session; the families returned are all of the authorization's. |
| `Store.LockFamilies` | internal/deviceauth/revoke.go:194-211 | Locks every discovered family that exists and returns its current row. |
| `Store.RevokedThemAll` | internal/deviceauth/revoke.go:112-124 | Revoking the listed families one by one revokes exactly the families of the authorization and their active tokens. |
| `Store.RegistrationInTwoParts` | internal/deviceauth/register.go:465-498 | The inserts in source order, on top of the started record, make up the registration graph. |
| `Store.Store.BeginIdempotency` | internal/deviceauth/postgres_repository.go:134-149 | A free key is started with an in-progress record; a taken key is classified and left alone. |
| `Store.Store.CompleteIdempotency` | internal/deviceauth/postgres_repository.go:151-165 | Completes exactly an in-progress record of the same request. |
| `Store.Store.MarkDeviceRefreshUsed` | internal/store/deviceauth.sql.go:808-813 | Uses exactly an active token. |
| `Store.Store.RotateDeviceFamilyAccess` | internal/store/deviceauth.sql.go:930-936 | Replaces the access token of an active, unexpired family, bumps its version and keeps its absolute expiry. |
| `Store.Store.InsertDeviceRefreshToken` | internal/store/deviceauth.sql.go:675-678 | Inserts exactly a new digest under an existing family. |
| `Store.Store.CompromiseDeviceTokenFamily` | internal/store/deviceauth.sql.go:65-70 | Compromises exactly an active family and bumps its version. |
| `Store.Store.RevokeDeviceTokenFamily` | internal/store/deviceauth.sql.go:911-915 | Revokes exactly a family that is not yet revoked. |
| `Store.Store.RevokeDeviceAuthorization` | internal/store/deviceauth.sql.go:835-839 | Revokes exactly an authorization that is not yet revoked. |
| `Store.Store.RevokeDeviceRecord` | internal/store/deviceauth.sql.go:873-877 | Revokes exactly a device that is not yet revoked. |
| `Store.Store.CompromiseUsed` | internal/deviceauth/rotate.go:576-621 | The five writes of a compromise succeed together exactly when the family, version and record are as locked. |
| `Store.Store.Preflight` | internal/deviceauth/rotate.go:191-250 | The preflight transaction, statement by statement with rollback, commits and answers exactly as the atomic one. |
| `Store.Store.Reclassify` | internal/deviceauth/rotate.go:623-689 | The same for the transaction after a failed challenge. |
| `Store.Store.RotateRows` | internal/deviceauth/rotate.go:351-379 | The four writes of a rotation succeed together exactly when every statement's guard holds. |
| `Store.Store.RotateLocked` | internal/deviceauth/rotate.go:332-380 | Preparing and writing a rotation of a locked live token commits the rotation, or rolls back to the database before the transaction. |
| `Store.Store.Final` | internal/deviceauth/rotate.go:292-381 | The final transaction commits and answers exactly as the atomic one. |
| `Store.Store.RevokeEach` | internal/deviceauth/revoke.go:112-124 | The loop revokes all listed families with their active tokens. |
| `Store.Store.RevokeRows` | internal/deviceauth/revoke.go:112-157 | All writes of a revocation succeed on a valid graph and produce the revoked graph. |
| `Store.Store.RevokeDevice` | internal/deviceauth/revoke.go:49-160 | The whole revocation commits and answers exactly as the atomic one for the authorization the device column discovers. |
| `Store.Store.CreateDevice` | internal/store/deviceauth.sql.go:127-130 | Inserts exactly a new device whose keys are new for its owner. |
| `Store.Store.ConsumeEnrollmentGrant` | internal/store/deviceauth.sql.go:95-100 | Consumes exactly an unused, unexpired grant for an existing device. |
| `Store.Store.CreateDeviceAuthorization` | internal/store/deviceauth.sql.go:158-161 | Inserts exactly a new authorization of a device without one, and a provisional one only when its owner has none. |
| `Store.Store.BindSession` | internal/identity/postgres_repository.go:305-335 | Binds exactly an active, unbound session and records the registration. |
| `Store.Store.EnrollRows` | internal/deviceauth/register.go:465-482 | Device, grant, authorization and session are written together exactly when every unique index admits them. |
| `Store.Store.RootRows` | internal/deviceauth/register.go:483-498 | Policy, family, root token, event and record are written together exactly when every unique index admits them. |
| `Store.Store.RegisterDevice` | internal/deviceauth/register.go:317-508 | Preparation and final transaction commit and answer exactly as the atomic registration. |
| `Reads.FindBound` | internal/identity/postgres_repository.go:117-135 | The loop over locked sessions finds exactly the grant's session among its owner's. |
| `Reads.NoneBound` | internal/identity/postgres_repository.go:162-166 | The loop accepts exactly when no session of the owner is bound to a device. |
| `Reads.ValidateDeviceEnrollment` | internal/identity/postgres_repository.go:81-178 | Statement by statement it yields exactly the enrollment the grant entitles to. |
| `Reads.AuthorizeBundle` | internal/deviceauth/token.go:73-152 | Succeeds exactly when some family authorizes this access token, and returns that family's authority with the effective policy. |
| `Locks.Footprint` | internal/store/deviceauth.sql.go:613-619 | Every change of the database leaves alone all rows outside the locks its statements take, including the whole token set of a locked family. |
| `Interleaving.RunFrame` | internal/deviceauth/rotate.go:420-462 | What a rotation has read under locks stays current through every commit that takes other locks. |
| `Interleaving.NextKeeps` | internal/deviceauth/rotate.go:394-470 | Every statement of the lock routine keeps that knowledge and takes at most the lock it waited for. |
| `Interleaving.LocalsDecide` | internal/deviceauth/rotate.go:463-485 | When the second listing equals the locked rows, the local variables decide exactly as the check on the committed database. |
| `Interleaving.DecisionIsAtomic` | internal/deviceauth/rotate.go:292-381 | The writes computed from the local variables are those of the atomic transaction on the committed database. |
| `Concurrency.CommitWithinLocks` | internal/store/deviceauth.sql.go:772-778 | A rotation or compromise changes only rows its transaction has locked. |
| `Concurrency.LockedIsCurrent` | internal/deviceauth/rotate.go:394-486 | In every history, a run whose two listings agree holds exactly the committed family, authorization, device, account and full refresh set. |
| `Concurrency.EveryEndIsAtomic` | internal/deviceauth/rotate.go:134-151 | In every history, a run ends as its atomic transaction on the database committed at that moment, or leaves it alone and answers unavailable. |
| `Concurrency.EveryMoveIsAnEffect` | internal/deviceauth/rotate.go:292-381 | Every statement of every history changes the database by one effect of the atomic protocol or not at all. |
| `Concurrency.GraphAlongTrace` | internal/deviceauth/register.go:434-508 | So the device graph stays whole along every history of interleaved statements. |
| `Histories.ChainsAlongTrace` | internal/deviceauth/rotate.go:292-381 | Every family is one chain with the version counting it, at every point of every history of interleaved statements. |
| `Concurrency.WaitingRunMissesInsert` | internal/deviceauth/rotate.go:466-477 | A run that waits for row locks while another rotates the family has missed the new token: why the second listing is needed. |
| `Histories.InsertIsMissed` | internal/deviceauth/rotate.go:466-477 | Such a history exists whenever a rotation may succeed: a second run of the same token under another key reaches the wait with a snapshot that lacks the token about to be inserted. |
| `LockOrder.ProgramsAreStraight` | internal/deviceauth/revoke.go:169-239 | Rotation, bundle authorization and revocation each take their locking reads in strictly ascending rank. |
| `LockOrder.WritesAreHeld` | internal/deviceauth/revoke.go:113-134 | A transaction that has checked what it locked holds every row its update statements find then, the refresh tokens of its families and the sessions bound to its authorization included. |
| `LockOrder.NoDeadlock` | internal/deviceauth/token.go:90-124 | In every schedule of any number of them, with commits of all other transactions in between, no transactions wait for each other in a circle and no update statement waits at all. |
| `LockOrder.RotationsNeverDeadlock` | internal/deviceauth/rotate.go:420-462 | Rotations at any point of a statement-by-statement history form no circle of waiting, among themselves or together with the transactions of any such schedule. |
| `Idempotency.AadInjective` | internal/sensitive/local.go:234-243 | The authenticated context determines the domain and the key version. |
| `Idempotency.SealedOpens` | internal/sensitive/local.go:127-196 | A sealed field opens to its plaintext in its own domain and in no other. |
| `Idempotency.Local.Close` | internal/sensitive/local.go:200-217 | After closing nothing seals or opens, and the keys are gone. |
| `Idempotency.ScopesSeparate` | internal/idempotency/service.go:129-137 | Authenticated scopes are valid, determine principal, credential domain and operation, and are never anonymous. |
| `Idempotency.BodiesFit` | internal/idempotency/service.go:352-366 | Every body from empty to exactly 1 MiB fits every size limit, sealed and opened. |
| `Idempotency.CompletedReplays` | internal/idempotency/service.go:296-336 | A completed record replays status and body byte for byte to its own request until it expires, and answers any other request with a conflict and no body. |
| `Idempotency.BeginCompleteReplay` | internal/idempotency/service.go:253-392 | The life of a key: started once, busy until completed, then replayed; it cannot be completed twice. |
| `Idempotency.TakenOnce` | internal/idempotency/service.go:168-181 | Over all copies of a handle the body is taken exactly once, by the first to ask. |
| `Idempotency.TakeResponseBody` | internal/idempotency/service.go:168-181 | Takes from the owner that all copies of the handle share. |
| `Idempotency.Repository.Begin` | internal/idempotency/service.go:253-337 | Inserts if absent, otherwise classifies the stored row; the handle carries the key, digest, state and times of its row, only a started one can complete, and a replay owns its body. |
| `Idempotency.StartedIsCompletable` | internal/idempotency/service.go:281-290 | A started handle satisfies everything Complete demands on the rows Begin leaves. |
| `Idempotency.BeginCompleteBegin` | internal/idempotency/service.go:253-392 | Through the methods: a fresh key is begun, completed with any valid status and body, and begun again; the replay carries that status and hands out that body. |
| `Idempotency.Repository.Complete` | internal/idempotency/service.go:339-392 | Succeeds exactly for a valid status and body, an open protector and an in-progress row of the same request; otherwise nothing changes. |
| `ChallengeCodec.DeviceDecodesEncoding` | internal/deviceauth/challenge_store.go:70-125 | Decoding an encoded device challenge gives it back. |
| `ChallengeCodec.DeviceEncodesDecoding` | internal/deviceauth/challenge_store.go:92-154 | Any byte string that decodes as a device challenge is its encoding. |
| `ChallengeCodec.AccountDecodesEncoding` | internal/identity/challenge_store.go:65-123 | Decoding an encoded account challenge gives it back. |
| `ChallengeCodec.AccountEncodesDecoding` | internal/identity/challenge_store.go:90-131 | Any byte string that decodes as an account challenge is its encoding. |
| `ChallengeCodec.FormatsDisjoint` | internal/identity/challenge_store.go:16-21 | No byte string decodes in both formats. |
| `ChallengeStore.RedisChallengeStore.Create` | internal/deviceauth/redis_challenge_store.go:65-89 | Stores exactly a valid record under a free identifier for its lifetime in whole milliseconds; a lost reply leaves it stored and reports failure. |
| `ChallengeStore.RedisChallengeStore.Consume` | internal/deviceauth/redis_challenge_store.go:92-139 | Removes the challenge whatever the checks say and even when the reply is lost, and returns it exactly to a caller with its digests before it expires. |
| `ChallengeStore.OneShot` | internal/deviceauth/redis_challenge_store.go:125-139 | A stored challenge is returned exactly to its own digests before it expires, and not once it was removed. |
| `ChallengeStore.TakenWithinStored` | internal/deviceauth/redis_challenge_store.go:65-139 | Over any history with any faults a challenge is handed out at most as often as it was stored, not counting one still there. |
| `Transcripts.BuildMaterial` | internal/identity/register.go:405-440 | The two loops build the framed material exactly for inputs within every length bound. |
| `Transcripts.MaterialInjective` | internal/identity/reauth.go:81-120 | Equal canonical material means equal operation and equal parts, for any number of parts. |
| `Transcripts.BindingInjective` | internal/deviceauth/register.go:799-841 | The framed input of the rotation, registration and revocation bindings determines which of the three it is and every field of it. |
| `Transcripts.ProofsInjective` | internal/deviceauth/pop.go:28-47 | A proof transcript determines its kind and every field, so no proof of one kind is one of another. |
| `Transcripts.SubjectsInjective` | internal/ratelimit/limiter.go:60-69 | The rate-limit material determines operation, window and subject. |
| `RateLimit.FloorWindowStart` | internal/ratelimit/limiter.go:81-93 | The result is the mathematical floor, and it fails exactly when that leaves the 64-bit range. |
| `RateLimit.RedisLimiter.Allow` | internal/ratelimit/redis.go:65-99 | One call, with its digest for one instant and its script at another, increments exactly its own counter and is allowed exactly by the count and the time to live. |
| `RateLimit.CounterCounts` | internal/ratelimit/redis.go:18-23 | A counter never exceeds the calls made, and counts them all if and only if every script of its key ran less than a window after the first. |
| `RateLimit.InsideIsPrompt` | internal/ratelimit/redis.go:65-99 | Scripts that run inside the window of their own digest always do. |
| `RateLimit.WindowLimit` | internal/ratelimit/redis.go:65-99 | Over any history at most the limit is allowed per subject, operation and aligned window for every start of its key, and at most the limit when its scripts are that prompt. |
| `RateLimit.PromptStartsOnce` | internal/ratelimit/redis.go:18-23 | A key is started at most once if and only if its scripts are that prompt. |
| `RateLimit.DelayedScriptExceeds` | internal/ratelimit/redis.go:65-99 | With a limit of one, a second call whose digest is taken just before the window ends and whose script runs at its end is allowed too. |
| `RateLimit.IntervalLimit` | internal/ratelimit/limiter.go:44-79 | Over any history at most twice the limit is allowed in any interval of one window length when the scripts are prompt, and the limit per start of either key otherwise. |
| `RateLimit.EarlyCallsAllowed` | internal/ratelimit/redis.go:92-98 | Within the limit a call is refused exactly when its key's remaining life is outside one millisecond to one window. |
| `Reporter.NothingIsLost` | internal/errorreport/reporter.go:134-212 | In every interleaving of the lock, check, send and close statements nothing is sent on the closed queue, it is closed once, and accepted reports are exactly those recorded, in the batch or queued, in order. |
| `Reporter.BatchesAreRuns` | internal/errorreport/reporter.go:181-212 | Batches are first-in first-out runs of one to the maximum, and those the provider saw are an initial run of them, all of them unless the reporter was cancelled. |
| `Reporter.FinishedRecordsEverything` | internal/errorreport/reporter.go:181-237 | When the worker has finished, every accepted report has exactly one recorded result. |
| `Reporter.ResultsAreTrue` | internal/errorreport/reporter.go:214-237 | The observer is told, in order, exactly what became of every batch: sent if accepted, failed if it failed before cancellation, dropped otherwise; nothing is dropped before cancellation. |
| `Reporter.AsyncReporter.TryReport` | internal/errorreport/reporter.go:134-150 | Accepts exactly while accepting and below capacity, and records a drop when full. |
| `Reporter.AsyncReporter.Collect` | internal/errorreport/reporter.go:183-207 | Takes the longest batch from the front of the queue that the maximum allows. |
| `Reporter.AsyncReporter.Deliver` | internal/errorreport/reporter.go:214-237 | Records one result for every report of the batch. |
| `Reporter.AsyncReporter.Drain` | internal/errorreport/reporter.go:181-212 | On a closed queue the worker records all queued reports in order and stops. |
| `Email.AckedMeansDelivered` | cmd/control-api/main.go:856-913 | Under any redelivery, concurrency and crashes an acked message has a consumed record, a consumed record means the provider accepted the delivery, and a row marked published reached the broker. |
| `Email.MarkKeeps` | internal/outbox/publisher.go:118-127 | That last part follows from the publisher's order: only a claim that heard the broker take the row goes on to mark it. |
| `Email.NoRowIsStuck` | db/queries/outbox.sql:1-14 | No crash and no failed mark or release strands a row: while unpublished it can be claimed again more than 36 seconds later. |
| `Email.ClearedMeansDelivered` | internal/identity/email_consumer.go:136-152 | Over any run a pending delivery that disappears without its service withdrawing it belongs to a message that is consumed and whose delivery the provider accepted. |
| `Email.ProgressIsKept` | internal/identity/email_consumer.go:78-157 | Nothing published, received, consumed, acked or accepted is ever taken back. |
| `Email.EmailConsumer.Consume` | internal/identity/email_consumer.go:78-157 | Success exactly for an event already consumed, or for a live pending delivery of its template that the provider accepts and whose record commits; a newly accepted delivery carries the pending row's template and token, and a second delivery of a consumed event sends nothing. |
| `Email.SentWasRequested` | internal/identity/email_consumer.go:100-135 | Over any run whatever the provider accepted, a service asked for with that template and token, and an identifier is accepted with one content only. |
| `Email.OneClaimPerLease` | db/queries/outbox.sql:1-14 | Over any run in which nobody releases the row, a second claim of it within thirty seconds of the first changes nothing. |
| `Email.ClaimsExactly` | db/queries/outbox.sql:1-14 | A row is claimed exactly when it is unpublished, due, and unclaimed or past its lease. |
| `Email.LocalEmailSender.Send` | internal/identity/local_email_sender.go:27-46 | Captures an identifier once, in step with the order list; sending it again succeeds and changes nothing. |
| `Email.LocalEmailSender.Captured` | internal/identity/local_email_sender.go:49-60 | Returns every captured delivery once, in the order of acceptance. |
| `Outbox.Publisher.PublishAvailable` | internal/outbox/publisher.go:96-130 | Every claimed row ends as its answers say: marked, left to its lease, or due again within bounds; the broker holds exactly the rows it took, and the result counts the marked ones. |
| `Email.TurnsAreSteps` | internal/outbox/publisher.go:109-127 | One turn of that loop is a publish step and a mark or a release of the pipeline. |
| `Outbox.RetryBase` | internal/outbox/publisher.go:226-241 | The loop doubles from one second and caps at thirty. |
| `Outbox.RetryDelay` | internal/outbox/publisher.go:214-224 | Jitter keeps the delay within twenty percent of the base. |
| `Outbox.BackOffGrows` | internal/outbox/publisher.go:226-241 | Delays never shrink from one attempt to the next. |

## Left out

- HTTP decoding, status mapping, metrics, configuration, process lifecycle and node control: they add many one-branch members and no hard property.
- JSON text of token responses and policies: a response is its fields; only the checks on the decoded fields are modelled.
- Registration challenges and the registration preflight transaction: the final transaction takes any enrollment as the one found earlier, which covers every outcome of those steps.
- Account session rotation is one atomic step; its own challenge and reclassification steps follow the device ones and are not repeated.
- WebAuthn, TOTP, recovery codes and password verification: their outcome is a parameter of the transactions that use them.
- Suspension and deletion of accounts, sessions and devices: the states exist in the tables, but nothing in the repository enters them.
- PostgreSQL microsecond rounding and clock skew between Redis and the service: one integer nanosecond clock is used; the delay between a clock reading and the step that uses it is modelled.
- Memory zeroing and redaction of secrets.
- Locks of transactions other than rotation, bundle authorization and revocation: the lock-order result covers these three kinds; email verification takes its authorization locks without waiting.
- Pruning of consumed event records: nothing in the repository runs it, and the email results are for pipelines without it.
- Store.Store.RotateDeviceFamilyAccess: refuses a drawn access digest that any family already holds, its own included, because drawn digests are new.
- Store.Store.RegisterDevice: demands non-zero drawn identifiers and digests, because preparation fails on a zero before any transaction starts.
- Outbox.Publisher.PublishAvailable: a row that does not validate counts as one the broker refuses, as it is released in the same way; the content of an envelope is not modelled.
- Transcripts.BindingInjective: the text of identifiers, origins and display names is modelled by its length only; the context digest is a field of its own.
- Transcripts.ProofsInjective: the UTF-8 check on the framed strings is not modelled; the result holds for all byte strings within the length bounds.
