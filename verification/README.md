# Skill gap service: a verified model

This project models the service behind the career-skills application: its HTTP API, its Streamlit front end's token
handling, and the core that compares a profile with a job and plans what to learn. It states what users of the service
rely on and proves it for every input, every run of requests and every behaviour of the network.

The pieces, and the modules that hold them:

- **Tokens.** `RefreshTokens` and `AuthServer` hold the server's side: issued claims, refresh-token rows, and
  register, login, refresh, logout and the guard of protected endpoints. `Rotation` proves what rotation keeps over
  whole runs, and `Accounts` who gets tokens and for whom. `AuthService` is the stateful server with its repositories,
  each handler proved to be the specification's step. `ApiProtocol` and `Client` hold the client: a call is a small
  machine that reacts to a 401 with one refresh and one retry, behind a bounded warm-up. `AppSession` holds what the
  front end copies between the client and its session state. `SessionSystem` puts any number of sessions and one
  server on a network that may lose, delay, repeat and replace replies, and `Progress` says what a session achieves
  when the network delivers.
- **Records of many users.** `Store` is the transition function of the profile, analysis and roadmap endpoints on
  owned records, and `Endpoints` says what each of them answers and stores in terms of its request. `Tenancy` proves
  that users do not see each other and that the ways of holding records agree. `RoadmapRecords`, `Mappers` and
  `Repositories` hold the two backends: dictionaries with ownership beside them, resource objects changed in place
  through an index; and tables with a user column, ownership of roadmaps through their analysis, and JSON columns that
  are scanned. `Handlers` runs the endpoints over either and proves both to be the specification, for one request and
  for any sequence.
- **From gap to match.** `Gap`, `Roadmap` and `RoadmapObjects` hold the analysis, the generated roadmap (as value and
  as objects), marking resources and recalculating the match. `EndToEnd` says what a profile and the match are after a
  whole run of requests, and `BothBackends` sends one run to both backends.
- **Profiles, jobs and resumes.** `Profiles` holds skill lists and their patches, `Slugs`, `JobCatalogue` and `Paging`
  the catalogue, its ids, search, pages and seeding, `Resume` the parser and the printer.

`Common` and `Models` hold shared datatypes and text operations.

Ids, tokens, the clock, password hashes and replies are inputs; the password verifier is any function of hash and
password. Ids and tokens are assumed new where they are drawn (`Fresh`, `FreshCall`, `FreshIds`), as random 128-bit
ids are. A token stands for the claims that were signed into it; nothing else decodes. Each request is atomic on the
server, which runs one worker. SQL tables are maps in which a session reads its own writes.

Where the code does not do what its documentation says, the model follows the code:

- `format_profile` promises that parsing its output recovers every skill. It recovers those that start and end with a
  word character, and of the others those that a label, another skill or another field happens to match
  (`Resume.ReadBackByField`): C++ on its own is lost (`Resume.CppIsLost`), .NET beside ASP.NET is not
  (`Resume.DotNetBesideAspNet`). Skills that contain a separator of the printed text are decided by that text
  (`Resume.ReadBackIsMatched`).
- Deleting a profile sets `profile_id` of its analyses to NULL only on a database that enforces foreign keys. SQLite
  does not unless told to, and the engine does not tell it; `Database.enforcesForeignKeys` is that choice.
- Colliding slugs are said to be told apart by suffixes; `Slugs.CollisionExample` shows three titles whose ids still
  collide, and `Slugs.IdsDistinct` says exactly when none do.
- Logout is described as always leaving the session signed out. A 2xx answer whose body is not JSON raises an error
  that is no API error, and the session keeps the pair it presented; it is then safe to rerun exactly when that token
  is still live (`SessionSystem.GarbledAnswerAfterRun`), and an unsafe session is reachable
  (`SessionSystem.GarblingReachesUnsafe`). `SessionSystem.EveryRerunIsSafe` therefore assumes, of refresh and logout
  only, that 2xx answers are empty or JSON.
- `search_jobs` says that empty filters return all jobs; filters of white space only do so exactly when both are empty
  (`JobCatalogue.BlankFindsAllIffEmpty`). The API's query schema strips its texts (app/schemas/common.py:22), so such
  a filter reaches the search only from the offline page, which passes its text field on (app.py:173).

Run `dafny verify dfyconfig.toml` to check the project.

## Model

| member | source | states |
|---|---|---|
| RefreshTokens.InMemoryRefreshTokenRepository.Create | app/repositories/refresh_token_repo.py:33-50 | the dictionary gains exactly one live row, under the new jti |
| RefreshTokens.InMemoryRefreshTokenRepository.GetByJti | app/repositories/refresh_token_repo.py:52-53 | the stored row, or none |
| RefreshTokens.InMemoryRefreshTokenRepository.Revoke | app/repositories/refresh_token_repo.py:55-76 | true exactly when a live row became revoked; everything else, and an already revoked row, stays as it was |
| RefreshTokens.InMemoryRefreshTokenRepository.IsRevoked | app/repositories/refresh_token_repo.py:78-87 | an unknown jti is not revoked |
| RefreshTokens.PresentsOnce | app/repositories/sql_refresh_token_repo.py:47-50 | a table with unique jtis presents one dictionary only, so the SQL view is well defined |
| RefreshTokens.RowAdded | app/repositories/sql_refresh_token_repo.py:33-45 | inserting a row with a new jti into the table is inserting it into the presented dictionary |
| RefreshTokens.SqlRefreshTokenRepository.Create | app/repositories/sql_refresh_token_repo.py:27-45 | the SQL backend keeps the same contract as the dictionary backend |
| RefreshTokens.SqlRefreshTokenRepository.GetByJti | app/repositories/sql_refresh_token_repo.py:47-50 | the query by jti returns what the dictionary would |
| RefreshTokens.SqlRefreshTokenRepository.Revoke | app/repositories/sql_refresh_token_repo.py:52-65 | assigning `revoked_at` on the found row is the dictionary backend's revoke, with the same answer |
| RefreshTokens.SqlRefreshTokenRepository.IsRevoked | app/repositories/sql_refresh_token_repo.py:67-70 | same answer as the dictionary backend |
| AuthServer.IssueTokensKeepsInv | app/api/v1/auth.py:107-123 | minting a pair keeps the invariant that every issued refresh token has a row of its subject whose expiry is its `exp` |
| AuthServer.RevokeKeepsInv | app/repositories/refresh_token_repo.py:55-76 | revocation keeps the invariant |
| AuthServer.HandleKeepsInv | app/api/v1/auth.py:131-264 | every register, login, refresh, logout and authenticated request keeps the invariant tying issued claims, rows and users together |
| Accounts.RegistrationGranted | app/api/v1/auth.py:134-153 | a registration is refused with 409 exactly when the stripped lower-case address is taken; otherwise the account is stored with its hash and its owner gets a pair with the stated claims, lifetimes and live row; nothing else changes |
| Accounts.LoginGranted | app/api/v1/auth.py:164-192 | a login is granted exactly when the address is registered and the password passes against the hash stored for it, and then to that account, as the user named and as the subject of both tokens; every other login is answered 401 INVALID_CREDENTIALS and changes nothing |
| Accounts.RefreshGranted | app/api/v1/auth.py:203-234 | a refresh is granted exactly for a current refresh token with an unrevoked row; that row is revoked, no other changes, and the pair is the subject's; a refusal says expired exactly for an issued token that has begun and is over |
| Accounts.LogoutRevokes | app/api/v1/auth.py:244-264 | logout always answers 204 and changes nothing but the live row of the current refresh token it presents |
| Accounts.GateAnswers | app/auth/tokens.py:154-190 | an access token gets its subject exactly while it is current, and otherwise 401 with the right one of the two codes |
| Accounts.AccountAt | app/repositories/user_repo.py:49-80 | in every state of every run an address has an account exactly when it was registered, and it is that of the first registration |
| Accounts.FirstRegistrationWins | app/api/v1/auth.py:139-146 | in every run exactly the first registration of an address is accepted |
| Accounts.LoginAfterRegistration | app/api/v1/auth.py:164-192 | in every run a login is granted exactly when its address was registered earlier and its password passes against the hash of that registration, and then to its user |
| Accounts.HandedOutTokenOpens | app/auth/tokens.py:95-117 | in every run an access token handed out earlier, by registration, login or refresh, opens the gate for whom it was handed to exactly from the second it was signed in until its time to live is over |
| Rotation.AcceptedRefresh | app/api/v1/auth.py:203-234 | a refresh succeeds exactly for an issued, current refresh token with an unrevoked row; that row is then unexpired and owned by the token's `sub`, although the handler reads neither; the new pair is the same user's and exactly one live row replaces another; a refused refresh changes nothing |
| Rotation.SpentForever | app/repositories/refresh_token_repo.py:55-76 | no request ever changes a revoked row |
| Rotation.IssuedForever | app/auth/tokens.py:120-146 | no request changes the claims of an issued token |
| Rotation.InvAt | app/api/v1/auth.py:131-264 | the invariant holds in every state of every run of requests |
| Rotation.SingleUse | app/api/v1/auth.py:212-224 | in every run, after a token was rotated or logged out, every later refresh presenting it is answered 401 and changes nothing |
| Rotation.LiveAfterRotate | app/api/v1/auth.py:220-234 | a successful refresh leaves the number of live rows unchanged |
| Rotation.LiveRowsConserved | app/api/v1/auth.py:107-264 | in every state of every run, live rows plus effective logouts equal successful registrations plus logins |
| Rotation.ChainStep | app/api/v1/auth.py:220-234 | a request keeps at most one live row in each login's chain of refresh tokens |
| Rotation.OneLivePerChain | app/api/v1/auth.py:220-234 | in every state of every run each row is in exactly one login's chain and each chain has at most one live row |
| AuthService.InMemoryUserRepository.Create | app/repositories/user_repo.py:49-71 | both dictionaries gain the user, under the id and under the normalised address |
| AuthService.InMemoryUserRepository.GetByEmail | app/repositories/user_repo.py:76-80 | lookup through the second index finds the user stored for the normalised address |
| AuthService.AuthService.Issue | app/api/v1/auth.py:107-123 | the state change of minting is the specification's, and both tokens are signed for the user |
| AuthService.AuthService.RegisterHandler | app/api/v1/auth.py:134-153 | the handler's new state and answer are those of the specification the run theorems are about; Accounts.RegistrationGranted says what they are |
| AuthService.AuthService.LoginHandler | app/api/v1/auth.py:164-192 | the same for login: what it checks, grants and refuses is Accounts.LoginGranted |
| AuthService.AuthService.RefreshHandler | app/api/v1/auth.py:203-234 | the same for rotation: check, revoke, then mint (Accounts.RefreshGranted) |
| AuthService.AuthService.LogoutHandler | app/api/v1/auth.py:244-264 | the same for logout, which always answers 204 (Accounts.LogoutRevokes) |
| AuthServer.BearerRoundTrip | api_client.py:563 | the header the client sends is read as the token it holds |
| AuthServer.BearerMeans | app/auth/decorator.py:58-75 | a header holds a token exactly when it starts with "Bearer " and more than white space follows; the token is what follows without the white space around it |
| AuthServer.GuardOpens | app/auth/decorator.py:57-100 | the gate opens exactly for a bearer header with an issued, current access token, and then for its subject; every refusal is 401: AUTH_REQUIRED exactly without a token, TOKEN_EXPIRED exactly for an issued one that has begun and is over, TOKEN_INVALID otherwise |
| AuthService.AuthService.RequireAuth | app/auth/decorator.py:57-100 | header, token and user are checked in the order, and with the refusals, of the gate's specification; nothing changes |
| ApiProtocol.RequestsOfACall | api_client.py:534-610 | for every stream of replies: request, at most one refresh, at most one retry, in that order; when each happens, with which token, and never more than three |
| ApiProtocol.TokensAfterACall | api_client.py:574-610 | the pair is unchanged, or that of the successful refresh, or emptied; it is emptied exactly when the call reports an expired session after it sent something; a public call never touches it |
| ApiProtocol.OutcomeOfACall | api_client.py:574-697 | for every stream of replies, what a call ends with in terms of the status and body of its last reply: the first one, or the reply to the retry; and exactly when it ends as expired, and when it crashes |
| ApiProtocol.PairOfAReply | api_client.py:729-768 | a refresh reply renews the pair exactly when it is a 2xx JSON object with both keys, and each token comes from its own key |
| Client.FinishPings | api_client.py:269-288 | all pings of a warm-up fail, except the last when it succeeds |
| Client.WarmupBounds | api_client.py:251-288 | at most 6 pings, sleeps of at most min(31, timeout) seconds, over within min(61, timeout + 5) seconds when pings take at most 5; warm exactly when some ping was answered 200; fewer than six failed pings only when the time is up |
| Client.BackOff | api_client.py:251-288 | when time does not run backwards, the pauses of a warm-up are 1, 2, 4, 8, 16 seconds with the last cut off at the timeout: one that ends before the timeout has slept exactly 2^(pings - 1) - 1 seconds |
| Client.LazyWarmup | api_client.py:290-299 | warming up before a call takes at most forty seconds, and gives up before its sixth ping only after thirty-five |
| Client.RequestBudget | api_client.py:534-610 | whatever the network answers, at most six pings, none when warm, then at most three requests, one for a public call |
| Client.RequestEnds | api_client.py:534-610 | a cold client whose pings all fail reports a connection error, with its tokens as they were; otherwise the method ends with the outcome of its last reply and with the old tokens, the refresh reply's, or none once the session has expired |
| Client.ApiClient.SetTokens | api_client.py:224-234 | the client holds the given pair and nothing else changes |
| Client.ApiClient.ClearTokens | api_client.py:770-779 | the client holds no tokens and nothing else changes |
| Client.ApiClient.WarmUp | api_client.py:251-288 | the loop sends, sleeps and ends exactly as the warm-up specification, whose pings, pauses and end FinishPings, BackOff and WarmupBounds fix, and sets the warm flag exactly on success |
| Client.ApiClient.EnsureWarm | api_client.py:290-299 | no ping once warm |
| Client.ApiClient.DoRefresh | api_client.py:729-768 | one refresh request; both tokens are replaced together, or neither |
| Client.ApiClient.Dispatch | api_client.py:552-610 | on every reply stream the method sends, ends with and leaves the tokens the call specification gives, which RequestsOfACall, OutcomeOfACall and TokensAfterACall fix |
| Client.ApiClient.Request | api_client.py:534-610 | warm-up and call together are the specification the budget theorem is about |
| Client.ApiClient.Logout | api_client.py:337-360 | nothing is sent without a refresh token; otherwise one public request; the client's own pair stays |
| AppSession.AppSession.AttachTokens | app.py:349-368 | the client's pair is the session's stored pair |
| AppSession.SignInStores | app.py:441-505 | submitting the login or registration form stores exactly the three values of a 2xx JSON object that has them, and nothing after a failure |
| AppSession.SignOutForgets | app.py:386-402 | logging out forgets all three keys whatever is answered, and none of them exactly when the answer cannot be decoded |
| AppSession.WorkMirrors | app.py:516-539 | after an action of a signed-in session its keys are the client's complete pair beside the same user, or none once the session has expired |
| AppSession.PersistedKeys | app.py:371-383 | a token the client has lost leaves the session's key as it was |
| AppSession.AppSession.PersistTokens | app.py:371-383 | tokens the client has are written to the session; absent ones leave the session's key as it was |
| AppSession.AppSession.HandleLogout | app.py:386-402 | the three token keys go, unless the call failed with something that is not an API error |
| AppSession.AppSession.SubmitSignIn | app.py:441-505 | a reported failure writes nothing; a success writes the three keys one after the other and stops at the first the reply lacks (that replies lack none is part of the system invariant) |
| AppSession.AppSession.Work | app.py:516-539 | after an authenticated call the session holds the client's pair, or nothing if the session expired |
| SessionSystem.ServeKeepsInv | app/api/v1/auth.py:203-264 | the server serving any request message in flight, any number of times, keeps the system invariant over sessions, network and server |
| SessionSystem.GatewayKeepsInv | api_client.py:664-697 | an error page or any other answer from in between keeps the system invariant |
| SessionSystem.MoveKeepsInv | api_client.py:729-768 | a session's move that gives up every refresh token it sends keeps the system invariant |
| SessionSystem.SessionStepKeepsInv | app.py:349-402 | every step of a session, from a rerun to a delivered or lost reply, keeps the system invariant |
| SessionSystem.RunKeepsInv | api_client.py:579-608 | the invariant holds in every reachable state of any number of sessions and one server |
| SessionSystem.EveryRerunIsSafe | app.py:361-402 | whatever the network loses, delays or repeats: at every rerun boundary the three keys are there together or not at all, a stored refresh token names an unrevoked row, and no two sessions store the same one |
| SessionSystem.OnlyTheClaimantStores | app.py:361-402 | a refresh token that one session holds, or is being handed, is stored by no other session |
| Progress.SignInSucceeds | app.py:441-505 | a sign-in whose answer arrives stores the issued pair, with a live refresh token, beside the user it was issued to, and ends the rerun; a refused one stores nothing and goes on |
| Progress.LogoutSucceeds | app.py:386-402 | a logout whose answer arrives clears the session, and its refresh token is used up exactly if it was current on the server's clock |
| Progress.AccessIsRenewed | api_client.py:574-610 | in every reachable state, an action whose access token is refused and whose refresh token has not run out ends, in three requests, with the new pair stored beside the same user, the old refresh token used up and the new one live |
| Progress.SessionExpires | api_client.py:579-585 | in every reachable state, an action whose access token is refused and whose refresh token has run out signs the session out and ends the rerun, and the server is as it was |
| SessionSystem.GarbledAnswer | api_client.py:672-681 | after an undecodable 2xx answer to a refresh or a logout the session is safe to rerun exactly when the token it presented is still live |
| SessionSystem.GarbledAnswerAfterRun | api_client.py:672-681 | that exact condition in every reachable state of the system |
| SessionSystem.GarblingReachesUnsafe | app.py:386-402 | with such answers an unsafe session is reachable, so the assumption of the safety theorem is needed |
| Gap.RoundRatioMonotone | app/core/gap_analyzer.py:33-36 | rounding half to even is monotone |
| Gap.PercentageMonotone | app/core/gap_analyzer.py:33-36 | more matched skills never lower the percentage |
| Gap.AccurateQuotientRoundsAlike | app/core/gap_analyzer.py:36 | off ties, any fraction within 1/(2n) of the exact share of n rounds to the same integer, which is all the floating-point quotient has to meet |
| Gap.AnalyzeGap | app/core/gap_analyzer.py:8-44 | the two loops compute the partition the lemmas are about |
| Gap.GapPartition | app/core/gap_analyzer.py:15-36 | each side of the job is split, multiplicities included, by whether the profile has the skill up to case, and the percentage is within half a point of the exact share, and 100 for a job that requires nothing |
| Gap.AmongAppend | app/core/gap_analyzer.py:18-32 | matched and missing skills are collected piece by piece, so they keep the job's order |
| Gap.AmongOne | app/core/gap_analyzer.py:18-32 | a single skill is matched exactly when the profile has it up to case |
| Roadmap.PlanConcat | app/core/roadmap_generator.py:63-107 | after any number of skills the three phases one after the other hold the resources in order, and no later phase has been started |
| Roadmap.PhasesInOrder | app/core/roadmap_generator.py:65-78 | phase assignment never goes back |
| Roadmap.PhasesConcatenate | app/core/roadmap_generator.py:53-109 | the three phases one after the other are exactly the resources (or one placeholder) of each missing skill in order, required before preferred: nothing lost or duplicated |
| Roadmap.FirstPhase | app/core/roadmap_generator.py:65-70 | phase 0 takes all required skills up to two of them, and otherwise the first half, rounded up |
| Roadmap.PhasesCut | app/core/roadmap_generator.py:18-79 | where the ordered missing skills are cut into three phases, and that these are "Month 1-2", "Month 3-4" and "Month 5-6": preferred skills go to the third phase up to two of them, and otherwise in halves, the first rounded up, to the second and third |
| Roadmap.BlockOf | app/core/roadmap_generator.py:81-107 | the copies for each missing skill stand together, behind those of the skills before it, and differ from the catalogue's resources in nothing but flag and id |
| Roadmap.ForKeyInOrder | app/core/roadmap_generator.py:50-52 | the lookup keeps the catalogue's order |
| Roadmap.PlaceholderOffered | app/core/roadmap_generator.py:95-107 | a skill the catalogue has nothing for gets one open ten-hour course that names it, at a page named after it in lower case with hyphens for spaces |
| Roadmap.FlatIds | app/core/roadmap_generator.py:84-107 | every generated resource is open and has an id of its own draw |
| Roadmap.OptionsTeach | app/core/roadmap_generator.py:80-107 | a missing skill always gets something, it teaches that skill up to case, and it is all the catalogue has for it |
| Roadmap.GeneratedDistinct | app/core/roadmap_generator.py:84-107 | the ids of a generated roadmap are non-empty and distinct |
| Roadmap.MarkCompletedById | app/core/roadmap_generator.py:136-179 | the loop completes exactly the resources with the id, and fails exactly when there is none |
| Roadmap.MarksAreASet | app/core/roadmap_generator.py:146-179 | a sequence of marks succeeds exactly when every id is there, and then depends only on the set of ids |
| Roadmap.RecalculateMatch | app/core/roadmap_generator.py:182-204 | the loop computes the rounded share of required skills held or covered by completed resources |
| Roadmap.MatchAfterMarks | app/core/roadmap_generator.py:182-204 | on a generated roadmap after any accepted marks, the match is the rounded share of required skills the profile has or a marked resource teaches |
| Roadmap.MatchOfFresh | app/core/roadmap_generator.py:182-204 | on a fresh roadmap it is the analysis' match percentage |
| Roadmap.MatchNeverFalls | app/core/roadmap_generator.py:136-204 | further marks never lower it |
| Roadmap.MatchIgnoresOrder | app/core/roadmap_generator.py:136-204 | marks with the same ids give the same roadmap and match in any order |
| Roadmap.MatchOfComplete | app/core/roadmap_generator.py:136-204 | it is 100 once everything is completed |
| RoadmapObjects.ObjectsForValues | app/core/roadmap_generator.py:48-51 | the grouped objects are, as values, the catalogue's resources for the key |
| RoadmapObjects.GroupBySkill | app/core/roadmap_generator.py:48-51 | the lookup holds, for every key, the catalogue's objects for it in order |
| RoadmapObjects.PlaceSkill | app/core/roadmap_generator.py:80-107 | one phase gains fresh open copies or the placeholder; the catalogue's objects stay as they are |
| RoadmapObjects.GenerateRoadmap | app/core/roadmap_generator.py:37-109 | fresh phases of fresh resources whose values are the specified roadmap, which PhasesCut, BlockOf and PlaceholderOffered determine; no existing object changes |
| RoadmapRecords.IndexUnique | app/api/v1/roadmaps.py:90-96 | what building an index promises determines the index, for any phases |
| RoadmapRecords.IndexIsExact | app/repositories/_mappers.py:165-179 | the built index leads from exactly the non-empty ids to exactly their positions if and only if no two resources share an id |
| RoadmapRecords.IndexedAreDistinct | app/repositories/roadmap_repo.py:56-64 | only a roadmap in which no two resources share an id has an exact index |
| RoadmapRecords.IndexFinds | app/repositories/roadmap_repo.py:56-61 | a non-empty id is in the index exactly when a resource has it |
| RoadmapRecords.BuildIndex | app/repositories/_mappers.py:165-179 | for any phases, each id leads to the last resource that has it, and resources without an id are skipped |
| RoadmapRecords.BuildResourceIndex | app/api/v1/roadmaps.py:90-96 | the same over the objects of a new roadmap |
| RoadmapRecords.SetAtIndex | app/repositories/roadmap_repo.py:63-65 | setting the flag at the indexed position sets it for the id, and keeps the index right |
| RoadmapRecords.RoadmapRecord.SetFlag | app/repositories/roadmap_repo.py:64-66 | one resource object and the timestamp change: as values, one flag of one position |
| RoadmapRecords.RoadmapRecord.SetCompleted | app/repositories/roadmap_repo.py:63-67 | only the record and the one resource object change; the record's value is the patched roadmap and its index still matches |
| RoadmapRecords.NewRecord | app/api/v1/roadmaps.py:109-120 | a new record is made of new objects only, with a matching index, and nothing that existed changes |
| RoadmapRecords.InMemoryRoadmapRepository.Create | app/repositories/roadmap_repo.py:41-44 | one record more, apart from all others |
| RoadmapRecords.InMemoryRoadmapRepository.UpdateResource | app/repositories/roadmap_repo.py:49-67 | at most the record and the resource object are touched; that roadmap becomes the patched one and every other stays; it fails exactly when the roadmap or the resource is missing |
| RoadmapRecords.InMemoryRoadmapRepository.CreateForUser | app/repositories/roadmap_repo.py:71-75 | the owned records gain the record under the user |
| RoadmapRecords.InMemoryRoadmapRepository.GetForUser | app/repositories/roadmap_repo.py:77-80 | another user's roadmap is as good as none |
| RoadmapRecords.InMemoryRoadmapRepository.UpdateResourceForUser | app/repositories/roadmap_repo.py:82-94 | an update of someone else's roadmap changes nothing; of one's own it is the patched roadmap |
| Mappers.ResourceRoundTrip | app/repositories/_mappers.py:182-225 | a resource survives its dictionary |
| Mappers.ResourceKeys | app/repositories/_mappers.py:216-225 | the JSON of a resource has exactly these keys, each with its own attribute |
| Mappers.PhaseKeys | app/repositories/_mappers.py:229-235 | the same for a phase |
| Mappers.ResourceDefaults | app/repositories/_mappers.py:182-191 | a dictionary without `completed` and `id` reads as open and without id |
| Mappers.PhasesRoundTrip | app/repositories/_mappers.py:194-235 | phases survive the JSON column |
| Mappers.EmptyReads | app/repositories/_mappers.py:195-205 | an absent or empty column reads as a roadmap without phases, a phase without the key as one without resources |
| Mappers.RoadmapRoundTrip | app/repositories/_mappers.py:194-242 | a roadmap record survives its row |
| Mappers.ReadRoadmap | app/repositories/_mappers.py:194-213 | any row either cannot be read, or gives its record and the index of that record |
| Mappers.IndexSurvives | app/repositories/_mappers.py:165-213 | the rebuilt index is the one the record was stored with |
| Mappers.SetCommutes | app/repositories/sql_roadmap_repo.py:83-87 | setting the flag inside the JSON is setting it in the record |
| Mappers.Scan | app/repositories/sql_roadmap_repo.py:82-95 | on any column the nested scan sets the flag of the first resource with the id and nothing else, or finds that none has it, or fails at the first thing that is no dictionary or cannot be gone through |
| Mappers.ScanOfRoadmap | app/repositories/sql_roadmap_repo.py:82-95 | on a column the mapper wrote it never fails, hits exactly when some resource has the id, and gives the roadmap with the first such flag set |
| Mappers.ScanIsIndexed | app/repositories/sql_roadmap_repo.py:73-90 | on distinct ids the scan's position is the index's, and the result is that of the indexed update |
| Mappers.AnalysisRoundTrip | app/repositories/_mappers.py:119-157 | an analysis record survives its row, with an empty `profile_id` stored as NULL |
| Mappers.MissingResult | app/repositories/_mappers.py:120-133 | a result without gap or categories reads as empty ones |
| Mappers.GapKeys | app/repositories/_mappers.py:122-128 | the JSON of a gap has exactly these keys, each with its own list |
| Mappers.CategorizationKeys | app/repositories/_mappers.py:129-133 | the same for its categories |
| Mappers.AnalysisColumns | app/repositories/_mappers.py:145-157 | every column of an analysis row holds the attribute of its name |
| Mappers.RoadmapColumns | app/repositories/_mappers.py:228-242 | the same for a roadmap row |
| Mappers.ProfileColumns | app/repositories/_mappers.py:56-68 | and for the record read from a profile row |
| Mappers.DetachedRow | app/repositories/_mappers.py:137 | a row whose `profile_id` became NULL reads as the record with an empty one |
| Profiles.DeduplicateSkills | app/core/profile_manager.py:8-17 | the loop keeps the first spelling of each skill, stripped, and reports whether anything was dropped |
| Profiles.CreateProfile | app/core/profile_manager.py:20-71 | the checks run in the stated order and the first failing one decides the error; success strips the fields and reports dropped duplicates |
| Profiles.CreationAccepted | app/core/profile_manager.py:34-70 | creation succeeds exactly when name, role and every skill are non-blank, skills fit in 100 characters and at most 30 differ up to case; the stored list is valid and names the same skills |
| Profiles.CreationErrors | app/core/profile_manager.py:36-60 | which error a creation reports: name, role, no skills, the first bad skill, and the count only when nothing else is wrong |
| Profiles.DedupedPositions | app/core/profile_manager.py:8-17 | the list keeps the first spelling of each skill, stripped, in the order of the first occurrences |
| Profiles.UpdateProfile | app/core/profile_manager.py:74-114 | the loops compute the update the lemmas are about, with its errors |
| Profiles.PatchEffect | app/core/profile_manager.py:83-97 | up to case the new list is (old and added) without removed; what survives of the old list comes first, in its old order |
| Profiles.AddAllPositions | app/core/profile_manager.py:83-91 | added skills are appended in the order of the request, each in its first spelling, stripped |
| Profiles.PatchOrder | app/core/profile_manager.py:83-97 | the new list is what is left of the old one followed by what is left of the skills appended |
| Profiles.UpdateErrors | app/core/profile_manager.py:99-114 | a skill that is too long is reported before the count, and an accepted update changes nothing but the skills |
| Profiles.UpdateAccepted | app/core/profile_manager.py:83-106 | exactly when a patch of a valid list is accepted, and that it leaves a valid list |
| Profiles.PatchesKeepSkillsValid | app/core/profile_manager.py:51-106 | after any sequence of patches the skills are 1 to 30, stripped, non-empty, at most 100 characters, distinct up to case, and up to case what the accepted requests add up to |
| Profiles.FormRoundTrip | app.py:654-664 | saving the form gives exactly the form's skills if and only if what it adds is stripped, non-empty and new up to case, and it has 1 to 30 skills of at most 100 characters |
| Profiles.CaseChangeLosesTheSkill | app.py:654-664 | changing only the case of a skill in the form loses the skill |
| Store.HandleKeepsInv | app/api/v1/roadmaps.py:102-151 | every request keeps: a roadmap has its analysis' owner, an analysis its profile's, resource ids are distinct and every profile's skills are valid |
| Store.RunKeepsInv | app/api/v1/analyses.py:81-122 | so does every run of requests with fresh ids |
| Store.StoredSkillsValid | app/api/v1/profiles.py:117-136 | what creating or patching a profile stores as skills is a valid list |
| Endpoints.ProfileCreation | app/api/v1/profiles.py:72-90 | 201 exactly for an acceptable request; the stored profile has each text stripped in its own field, the named skills, the new id and the time twice; otherwise 400 PROFILE_INVALID and nothing changes |
| Endpoints.ProfileReading | app/api/v1/profiles.py:95-104 | the user's own record, or 404 NOT_FOUND |
| Endpoints.ProfilePatching | app/api/v1/profiles.py:110-143 | 404, 400 or 200 by ownership and by whether the skills stay valid; each given field is the new value and each absent one stays; id, owner and creation time stay, and no other record changes |
| Endpoints.PatchIsRead | app/api/v1/profiles.py:95-143 | what a PATCH answered is what is read next |
| Endpoints.ProfileDeletion | app/api/v1/profiles.py:148-158 | 204 exactly for the user's own profile, which is gone; analyses lose their reference to it only where the database clears it |
| Endpoints.AnalysisCreation | app/api/v1/analyses.py:81-113 | the profile is looked for before the job; the analysis is of that profile against that job, under their ids, and its categories come from missing and matched skills, in this order |
| Endpoints.AnalysisReading | app/api/v1/analyses.py:118-122 | the user's own record, or 404 ANALYSIS_NOT_FOUND |
| Endpoints.RoadmapCreation | app/api/v1/roadmaps.py:102-122 | 201 exactly for the user's own analysis, with the roadmap generated from its gap |
| Endpoints.ResourcePatching | app/api/v1/roadmaps.py:128-151 | a missing roadmap is told apart from a missing resource; otherwise exactly the flag of that resource and the timestamp change |
| Tenancy.FlagsStep | app/repositories/roadmap_repo.py:82-94 | a request changes the flags of a roadmap only if it is its owner's patch of that roadmap |
| Tenancy.LastWriteWins | app/api/v1/roadmaps.py:128-151 | in every run a roadmap stays its owner's, each flag is the one its owner sent last, and nothing else of its phases changes |
| EndToEnd.LearnedIsCompleted | app/core/roadmap_generator.py:194-198 | the skills of completed resources are those whose last patch says completed |
| EndToEnd.ProfileStays | app/repositories/profile_repo.py:91-113 | a profile changes in a run only by a patch or deletion of its owner |
| EndToEnd.ProfileAfterRun | app/api/v1/profiles.py:110-143 | in every run without its owner's deletion a profile is what its owner's patches make of it, field by field and skill by skill up to case; rejected patches and everyone else's requests count for nothing |
| EndToEnd.GapStays | app/repositories/analysis_repo.py:44-55 | an analysis and its gap stay in every run |
| EndToEnd.MatchOfStoredRoadmap | app/core/roadmap_generator.py:182-204 | a roadmap generated from a stored gap, after any requests by anyone, matches as the last patches of its owner say |
| EndToEnd.MatchOverHttp | app/core/roadmap_generator.py:182-204 | a user creates a profile, analyses it against a job and has a roadmap generated, among any requests by anyone: the match recalculated from the stored roadmap is the rounded share of required skills the profile has or a resource teaches whose last patch by that user says completed |
| Tenancy.StepInView | app/api/v1/profiles.py:72-158 | the reply, and the user's part of the new store, depend only on the user's part of the store |
| Tenancy.StepBesideView | app/repositories/profile_repo.py:84-113 | a request changes nothing of what another user has, even when a profile deletion clears references |
| Tenancy.Noninterference | app/api/v1/roadmaps.py:102-151 | deleting all other users' requests from any run leaves every reply to this user as it was |
| Tenancy.ForeignLooksMissing | app/repositories/analysis_repo.py:50-55 | a record of another user cannot be told from a missing one |
| Tenancy.ReadBack | app/api/v1/profiles.py:72-104 | a profile reads back as created whatever other users do in between |
| Tenancy.BackendsAgree | app/repositories/sql_roadmap_repo.py:107-149 | for every run, a database that clears references to deleted profiles and a store that keeps them give the same status, code and record, up to `profile_id` of an analysis whose profile was deleted |
| Tenancy.BackendsAgreeWithoutDeletion | app/db/models.py:147 | without profile deletions the replies are identical |
| Tenancy.FreshRunNulled | app/db/models.py:147 | ids that are new to the store that keeps references are new to the one that clears them |
| BothBackends.ServeBoth | app/repositories/sql_roadmap_repo.py:107-149 | the same requests sent to an in-memory and a SQL application get the same status, code and record, up to `profile_id` of analyses whose profile was deleted where the database clears it |
| Repositories.InMemoryProfileRepository.CreateForUser | app/repositories/profile_repo.py:84-89 | the owned records gain the profile under the user |
| Repositories.InMemoryProfileRepository.GetForUser | app/repositories/profile_repo.py:91-96 | the sidecar gives the ownership lookup |
| Repositories.InMemoryProfileRepository.UpdateForUser | app/repositories/profile_repo.py:98-103 | only the owner's record changes, and only its profile and `updated_at` |
| Repositories.InMemoryProfileRepository.DeleteForUser | app/repositories/profile_repo.py:105-113 | the record goes with its owner, or nothing changes |
| Repositories.InMemoryAnalysisRepository.CreateForUser | app/repositories/analysis_repo.py:44-48 | the owned records gain the analysis under the user |
| Repositories.InMemoryAnalysisRepository.GetForUser | app/repositories/analysis_repo.py:50-55 | the sidecar gives the ownership lookup |
| Repositories.PutRoadmapRow | app/repositories/sql_roadmap_repo.py:44-52 | a stored roadmap row belongs to the owner of its analysis |
| Repositories.DropProfileRow | app/db/models.py:147 | deleting a profile row clears the references to it where the database enforces them, and moves no roadmap to another owner |
| Repositories.Database.DeleteProfile | app/repositories/sql_profile_repo.py:149-153 | the tables hold the store after the deletion, with or without ON DELETE SET NULL |
| Repositories.SqlProfileRepository.CreateForUser | app/repositories/sql_profile_repo.py:47-105 | inserting the row adds the profile under the user |
| Repositories.SqlProfileRepository.GetForUser | app/repositories/sql_profile_repo.py:107-120 | the filtered query gives the ownership lookup |
| Repositories.SqlProfileRepository.UpdateForUser | app/repositories/sql_profile_repo.py:122-140 | assigning the row's fields is the in-memory replacement of the record |
| Repositories.SqlProfileRepository.DeleteForUser | app/repositories/sql_profile_repo.py:142-153 | only the owner's row can be deleted |
| Repositories.SqlAnalysisRepository.CreateForUser | app/repositories/sql_analysis_repo.py:45-60 | inserting the stamped row adds the analysis under the user, and it reads back as stored |
| Repositories.SqlAnalysisRepository.GetForUser | app/repositories/sql_analysis_repo.py:62-74 | the filtered query gives the ownership lookup |
| Repositories.SqlRoadmapRepository.CreateForUser | app/repositories/sql_roadmap_repo.py:107-116 | although the user is not written, the roadmap is the user's, because its analysis is |
| Repositories.SqlRoadmapRepository.GetForUser | app/repositories/sql_roadmap_repo.py:118-130 | the join gives the ownership lookup |
| Repositories.SqlRoadmapRepository.UpdateResource | app/repositories/sql_roadmap_repo.py:59-103 | the scan of the JSON column patches that roadmap and no other, or changes nothing |
| Repositories.SqlRoadmapRepository.UpdateResourceForUser | app/repositories/sql_roadmap_repo.py:132-149 | the ownership gate in front of the scan |
| Handlers.CreateProfileForUser | app/repositories/profile_repo.py:84-89 | one contract, met by both backends: the record is stored under the user |
| Handlers.DeleteProfileForUser | app/repositories/profile_repo.py:105-113 | one contract, met by both backends, up to the cleared references |
| Handlers.CreateRoadmapForUser | app/repositories/roadmap_repo.py:71-75 | one contract, met by the sidecar and by the join, for an analysis of the user's own |
| Handlers.UpdateResourceForUser | app/repositories/roadmap_repo.py:82-94 | one contract, met by the indexed update in place and by the scan |
| Handlers.CreateProfileHandler | app/api/v1/profiles.py:72-90 | over either backend, the new store and the reply are the specification's |
| Handlers.GetProfileHandler | app/api/v1/profiles.py:95-104 | the same for reading a profile |
| Handlers.PatchProfileHandler | app/api/v1/profiles.py:110-143 | the same for patching one, which Endpoints.ProfilePatching describes field by field; the defensive 404 cannot be reached |
| Handlers.DeleteProfileHandler | app/api/v1/profiles.py:148-158 | the same for deleting one |
| Handlers.CreateAnalysisHandler | app/api/v1/analyses.py:81-113 | the same for creating an analysis |
| Handlers.GetAnalysisHandler | app/api/v1/analyses.py:118-122 | the same for reading one |
| Handlers.CreateRoadmapHandler | app/api/v1/roadmaps.py:102-122 | the same for creating a roadmap, out of fresh objects only |
| Handlers.PatchResourceHandler | app/api/v1/roadmaps.py:128-151 | the same for completing a resource, with the two 404 codes told apart |
| Handlers.Serve | app/api/v1/roadmaps.py:102-151 | any request over either backend is the specification's step; the catalogue's objects stay as they are and apart from every stored roadmap |
| Handlers.ServeAll | app/api/v1/roadmaps.py:102-151 | any sequence of requests over either backend gives the replies of the specification's run, which the tenancy theorems are about |
| Slugs.SlugifyCanonical | app/repositories/job_repo.py:28-36 | a slug is non-empty words of a-z and 0-9 with single hyphens between |
| Slugs.SlugifyFixedPoints | app/repositories/job_repo.py:28-36 | slugging is idempotent and its fixed points are exactly the canonical texts |
| Slugs.SlugOfNothing | app/repositories/job_repo.py:34-36 | a title without a letter or digit is "job" |
| Slugs.SlugOfWord | app/repositories/job_repo.py:34-36 | a title of letters and digits is itself in lower case |
| Slugs.SlugIgnoresMargins | app/repositories/job_repo.py:34-36 | any other character at either end does not matter |
| Slugs.SlugJoins | app/repositories/job_repo.py:34-36 | between two titles that have letters or digits it is one hyphen between their slugs; with the three laws before this determines every slug |
| Slugs.IdByPosition | app/repositories/job_repo.py:48-56 | the first job with a slug has it as its id, any later one the slug with one more than the number of jobs before it that have the slug |
| Slugs.SharedIdCollides | app/repositories/job_repo.py:47-54 | two jobs share an id only when one slug is another followed by a number that one is given |
| Slugs.IdsDistinct | app/repositories/job_repo.py:47-57 | the ids are pairwise distinct exactly when no slug equals another followed by "-k" with k from 2 to that one's multiplicity |
| Slugs.CollisionExample | app/repositories/job_repo.py:47-57 | three titles whose ids collide |
| Common.DecimalInjective | app/repositories/job_repo.py:54 | distinct numbers print differently |
| Common.DecimalMeans | app/repositories/job_repo.py:54 | the printed number stands for the number and has no leading zero |
| Common.StripParts | app/core/profile_manager.py:14 | stripping takes white space off both ends and nothing else |
| JobCatalogue.InMemoryJobRepository.constructor | app/repositories/job_repo.py:42-57 | loading gives every job its id in load order, and a lookup in which the last of equal ids wins |
| JobCatalogue.InMemoryJobRepository.LoadAll | app/repositories/job_repo.py:47-57 | the loop with one counter for each slug gives those ids |
| JobCatalogue.EveryJobReachable | app/repositories/job_repo.py:47-62 | every job can be fetched by its id exactly when no slug collides |
| JobCatalogue.SearchJobs | app/core/job_catalog.py:69-95 | the loop is the in-order filter: either condition selects, two empty filters select everything |
| JobCatalogue.SearchFinds | app/core/job_catalog.py:85-93 | a keyword finds the jobs whose title contains it and a skill the jobs that require it, up to case and surrounding white space; either is enough |
| JobCatalogue.FilterConcat | app/core/job_catalog.py:87-95 | filtering goes job by job and keeps the order |
| JobCatalogue.RecordsConcat | app/repositories/job_repo.py:64-87 | so does filtering the records |
| JobCatalogue.BlankFindsAllIffEmpty | app/core/job_catalog.py:79-83 | filters of white space only find all jobs exactly when both are empty (otherwise, by BlankFilters, none) |
| JobCatalogue.BlankFilters | app/core/job_catalog.py:79-95 | filters of white space only select everything when both are empty, and nothing otherwise |
| JobCatalogue.StrippedFiltersFindAll | app/schemas/common.py:22 | filters that are stripped first, as the query schema does, find everything when they are blank |
| JobCatalogue.ListingIsFiltering | app/repositories/job_repo.py:64-87 | listing by object identity is the in-order filter of the records, for all filters, exactly when no posting object was loaded twice |
| JobCatalogue.InMemoryJobRepository.ListFiltered | app/repositories/job_repo.py:64-87 | the loops resolve the filtered postings through the identity map |
| JobCatalogue.InMemoryJobRepository.List | app/repositories/job_repo.py:89-97 | a page of the filtered list, with the total of the whole list |
| Paging.PageCount | app/repositories/job_repo.py:101-104 | the least number of pages that hold everything |
| Paging.PagesCover | app/repositories/job_repo.py:89-104 | pages 1 to `page_count` are the filtered list; all but the last are full, the last is not empty, later ones are |
| JobCatalogue.JobsTable.Upsert | scripts/seed_db.py:98-115 | inserting or refreshing leaves the catalogue's row under the id |
| JobCatalogue.JobsTable.Seed | scripts/seed_db.py:93-122 | the table is overwritten by the rows of the in-memory lookup, colliding ids included, and as many rows are touched as there are jobs |
| JobCatalogue.SeedingSettles | scripts/seed_db.py:93-122 | any number of runs equals one; other rows are untouched; every catalogue id holds the job the memory repository returns |
| JobCatalogue.SeededColumns | scripts/seed_db.py:98-115 | after any number of runs every column of a catalogue row is the attribute of that name of the job its id looks up |
| JobCatalogue.SqlPagesCover | app/repositories/sql_job_repo.py:70-88 | the SQL pages 1 to the count of its total are the filtered rows |
| JobCatalogue.SqlSkillFilter | app/repositories/sql_job_repo.py:73-79 | the skill filter keeps the rows that list the skill, as required or preferred, up to case; a blank one keeps all |
| JobCatalogue.RowsConcat | app/repositories/sql_job_repo.py:73-79 | and it keeps the statement's order |
| Resume.ParseResume | app/core/resume_parser.py:19-40 | the loop finds the matching skills, longest first, the first of each up to case |
| Resume.LongestFirstSorts | app/core/resume_parser.py:31-32 | the order is by length, longest first, and loses or repeats nothing |
| Resume.LongestFirstIsStable | app/core/resume_parser.py:31-32 | skills of one length keep the taxonomy's order |
| Resume.ParsedSkills | app/core/resume_parser.py:28-40 | each skill at most once up to case, and exactly those that the taxonomy has and the text matches |
| Resume.FoundPositions | app/core/resume_parser.py:31-40 | the skills are reported in the order they are tried in, longest first, each in its first matching spelling |
| Resume.MatchMeans | app/core/resume_parser.py:33-34 | a skill matches where it occurs up to case, unless a word character it starts or ends with runs on; one that starts or ends with another character needs a word character there |
| Resume.JoinConcat | app/core/profile_printer.py:15-23 | parts are joined in order with one separator between any two |
| Resume.LinesOf | app/core/profile_printer.py:16-22 | the printed profile is five lines, each field behind its own label |
| Resume.ShownMeans | app/core/profile_printer.py:19 | the years are printed as their number, behind a minus sign if negative |
| Resume.ListedMatches | app/core/profile_printer.py:15-23 | where the printed profile lists a skill, it matches exactly when it starts and ends with a word character |
| Resume.ReadBackIsMatched | app/core/profile_printer.py:11-23 | of the taxonomy, up to case, exactly the skills the printed text matches are read back, and none twice |
| Resume.PrintedSkillsAreRead | app/core/profile_printer.py:11-23 | every profile skill of the taxonomy that starts and ends with a word character is read back, up to case |
| Resume.ReadBackOfOneOccurrence | app/core/profile_printer.py:11-23 | a skill the printed text has only where it is listed is read back if and only if it starts and ends with a word character |
| Resume.FieldsDecide | app/core/profile_printer.py:15-23 | the printed text matches a skill without separators exactly when one of its labels or fields does |
| Resume.ReadBackByField | app/core/profile_printer.py:11-23 | exactly which profile skills are read back: those that start and end with a word character, and those that a label, another skill or another field matches |
| Resume.EndsBeforeWord | app/core/resume_parser.py:33-34 | a skill ending with another character matches only in front of a word character |
| Resume.CppIsLost | app/core/profile_printer.py:11-13 | a profile whose one skill is C++ is not read back, although the printer promises it |
| Resume.DotNetBesideAspNet | app/core/profile_printer.py:11-13 | .NET is read back beside ASP.NET, although it does not start with a word character |

## Left out

- Text outside ASCII: `str.lower`, `str.strip`, `\w` and case-insensitive matching are modelled on ASCII, where lower-casing keeps the length of a text.
- Gap.AnalyzeGap: rounds the exact ratio half to even; the code rounds a floating-point quotient, which can differ only where the exact value is a half (Gap.AccurateQuotientRoundsAlike).
- Roadmap.RecalculateMatch: the same rounding of the exact ratio.
- Mappers.Scan: the JSON column is a value that is replaced; sharing of dictionaries inside one row is not modelled.
- Mappers.ReadRoadmap: resource values of an unexpected type are an error; the conversions `int`, `str` and `bool` would accept some of them.
- Resume.ReadBackByField: is about skills without comma, colon or line break that do not start with a space; others can match across fields, and Resume.ReadBackIsMatched and Resume.ReadBackOfOneOccurrence say what holds of them.
- Repositories.SqlRoadmapRepository.CreateForUser: the detached record a SQL repository returns is a value, because nothing changes it afterwards.
- JobCatalogue.SqlPagesCover: the rows the statement selects, with its ILIKE conditions and its ordering, are a parameter that is the same for every page.
- Resume.ParseResume: sorting by length is a function; the library's sort is not modelled beyond being stable.
- SessionSystem.EveryRerunIsSafe: assumes that 2xx answers to refresh and logout are empty or JSON, and that a rerun is not interrupted between receiving a reply and writing the session's keys.
- Client.WarmupBounds: assumes that sleeping takes no longer than asked for.
- Password hashing, signing and JWT encoding are abstract: a hash is an input of the registration, its check an arbitrary function, and a token is what its claims were signed into. The check of a dummy hash for an unknown address, which only takes time, is not modelled.
- Error messages, the parsing of error bodies and of Retry-After, log output, rate limits, CORS, routing, and the field limits of the request schemas.
- The refresh method the application never calls, which keeps tokens on failure.
- Endpoints that only read the job catalogue or parse a resume, beyond the functions they call.
- `mark_completed` by name, which the API does not use.
- Skill categorization and summaries: the categorizer is an arbitrary function of the skills.
- Job search is not the same in both backends (the memory filter takes either condition and required skills, the SQL one both conditions, descriptions and preferred skills), so only the paging of each is proved.
- Loading and validating the JSON catalogues.
- SQLAlchemy sessions, commit and rollback, migrations, and deleting users with what cascades from it.
- Requests interleaved on the server: each is one step.
