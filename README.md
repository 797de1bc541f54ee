# Voting dApp ledger and client state, in Dafny

This project models the bookkeeping of a demo voting application. The
application has an Express server (backend/index.js) in front of a
`Voting` smart contract and a World ID verification flow, and a browser
client (frontend/app.js).

On the server side the model covers:

- **The vote ledger.** `Backend.Server` keeps the module-level
  `transactionHistory` as `history` and the JSON file
  transactionHistory.json as `historyFile`. These are two sequences, as in
  the code. Startup replaces `history` with one record per past `VoteCast`
  event. The live listener appends to `history` and then writes all of it
  over the file. The `/vote` handler declares its own local
  `transactionHistory`. It therefore reads the file, checks the
  requester's address against it ignoring case, and appends its record to
  the file only. `/candidate-votes` also reads the file.
- **The vote submission.** What the node and the contract answer is a
  `Chain` value: the accounts, the gas estimate, the gas price and the
  mined receipt, each either a value or an error message. `Vote` returns
  two things: the reply, and the transaction handed to `send`, whose gas
  is the estimate plus 10000. Every error message goes through
  `NormalizeError`, which turns a duplicate-vote message into
  "Voters account already cast a vote".
- **The verified-user store.** verified-users.json is a sequence of
  `{address, nullifier_hash, timestamp}` guarded by an exact comparison of
  `nullifier_hash`.
- **The tally.** The `/candidate-votes` tally is a loop filling a
  dictionary, projected onto the fixed candidates Alice (0), Bob (1) and
  Charlie (2).

On the client side, `Frontend.App` holds the module-level state:

- `currentCandidates` and the constant sample list;
- the `isTestMode` and `worldIDInitialized` flags;
- the verification held in memory and in `localStorage`.

Candidates are objects (`Frontend.Candidate`), because `handleVote`
increments `voteCount` in place. `[...SAMPLE_CANDIDATES]` copies the array
but not the objects, so test-mode votes change the sample candidates too
(`Scenarios.TestModeVotesSurviveReset`). The pure helpers are
`shortenAddress` (with JavaScript `substring` clamping), the 24-hour
expiry test, the candidate lookup with its "Already Voted <id>"
placeholder, and the three-way reading of the verification reply.

Things the model takes as parameters:

- the clock (`now`);
- the blockchain's answers (`Startup`, `Chain`, `VoteEvent`);
- the IDKit SDK's answers (`sdkInitSucceeds`, `proof`);
- the backend's replies as the client receives them;
- the outcome of each file write (`saved`).

Four behaviours of the code are kept as written:

- a vote's `candidateId` is never checked against the candidate list;
- the live listener appends a re-delivered event again instead of
  skipping a known transaction hash (`Scenarios.EchoedEventIsDuplicated`);
- the stored voter is the server's first account, not the requesting
  address (`Scenarios.RequesterAddressNotRecorded`);
- when the backend call fails, the client keeps the verification it
  stored beforehand and later reports the user as verified
  (`Scenarios.FailedBackendCallStillVerified`).

Files: wrappers.dfy (Option, Result), text.dfy (JavaScript string
built-ins), backend.dfy, frontend.dfy, scenarios.dfy.

## Model

| member | source | states |
|---|---|---|
| Backend.Server.constructor | backend/index.js:16-25 | the in-memory history starts as the history file's contents; no contract, no listener |
| Backend.Server.Initialize | backend/index.js:27-89 | with past events fetched, the history becomes exactly one record per event (voter, candidate, hash, time), whether or not the subscription then succeeds; true, with the listener on, exactly when the subscription succeeds too; a failed fetch after the contract is bound leaves it bound and the history as it was; a failure before binding changes nothing |
| Backend.Server.OnVoteCast | backend/index.js:66-82 | a delivered event appends exactly one record to the in-memory history, without any hash deduplication; when the write succeeds the whole history replaces the file, otherwise the file is unchanged; a listener error changes nothing |
| Backend.Server.StoreVerifiedUser | backend/index.js:102-134 | missing or empty hash gives "Missing nullifier_hash"; an exactly equal stored hash gives "Already verified"; in both cases the store is unchanged. A fresh hash, when the write succeeds, appends exactly one user at the end and succeeds; when the write fails the reply is "Internal server error" and the store is unchanged. Success holds exactly when the store grew by one, and pairwise distinct hashes stay distinct |
| Backend.Server.Vote | backend/index.js:136-225 | without a contract: the simulated reply echoing candidateId, and the file is untouched. An address already in the file, ignoring case, fails with the duplicate message before any chain call. A transaction from accounts[0] with gas estimate+10000 is sent exactly when all earlier steps succeed. Success returns the receipt's hash and, when the write succeeds, appends exactly one record (voter accounts[0], that hash) to the file; a failed write still replies success and leaves the file unchanged. Any other outcome leaves the file unchanged and fails with the normalised message of the first failing step |
| Backend.Server.CandidateVotes | backend/index.js:278-308 | the reply is the tally of the history file |
| Backend.TallyVotes | backend/index.js:283-300 | one entry per fixed candidate, in order, with its id and name and the number of records for that id (0 when there are none) |
| Backend.Tally | backend/index.js:296-300 | the projection has one entry per fixed candidate |
| Backend.TallyTotal | backend/index.js:283-300 | the counts add up to the number of records whose candidate id is a fixed one |
| Backend.TallyCountsEveryKnownVote | backend/index.js:283-300 | when every record names a fixed candidate, the counts add up to the number of records |
| Backend.IsDuplicateMessage | backend/index.js:214-217 | definition, no contract: the four substring tests |
| Backend.DuplicateVoteIsDuplicate | backend/index.js:214-218 | the fixed message "Voters account already cast a vote" itself passes the duplicate test |
| Backend.NormalizeError | backend/index.js:214-218 | a message passing the duplicate test becomes "Voters account already cast a vote", any other message is returned unchanged, and whether it reads as a duplicate is unchanged |
| Backend.NormalizeThreePatterns | backend/index.js:214-218 | for every message: containing "already voted", "already cast a vote" or "Already voted" gives "Voters account already cast a vote"; containing none of the three leaves it unchanged (the fourth pattern adds nothing) |
| Backend.NormalizeErrorIdempotent | backend/index.js:214-218 | normalising an already normalised message changes nothing (follows from the fixed message passing the test) |
| Backend.SameVoter | backend/index.js:162 | definition, no contract: equality after lower-casing both addresses |
| Backend.HasVoted | backend/index.js:160-163 | definition, no contract: some record's voter is the same voter as the address |
| Backend.SameVoterIgnoresCase | backend/index.js:162 | any two addresses that differ only in the case of ASCII letters are the same voter |
| Backend.HasVotedIgnoresCase | backend/index.js:160-163 | for every history, the duplicate check gives the same answer for two case variants of an address |
| Backend.HasVotedAfterAppend | backend/index.js:160-200 | after a record is appended, an address counts as having voted exactly when it did before or matches the new record's voter |
| Backend.HasNullifier | backend/index.js:118 | definition, no contract: some stored user has exactly that hash |
| Backend.HasNullifierAfterAppend | backend/index.js:118-125 | after a user is appended, a hash is stored exactly when it was before or is the new user's |
| Backend.Truthy | backend/index.js:107 | definition, no contract: the hash is present and not the empty string |
| Backend.ChainFailure | backend/index.js:169-190 | a failed getAccounts, estimateGas or getGasPrice gives that step's own message (each only when the earlier steps succeeded); no failure exactly when every step up to send succeeds and a receipt is mined; once send is reached the only possible failure is send's; no accounts gives "No accounts available for voting" |
| Backend.LocalDuplicateNormalized | backend/index.js:165-166 | the handler's own "Voters Address already cast a vote" is returned as "Voters account already cast a vote" |
| Backend.FourthPatternSubsumed | backend/index.js:214-217 | a message containing "Voter has already voted" already contains "already voted", so the fourth test is redundant |
| Frontend.ShortenAddress | frontend/app.js:647-649 | "" for an absent or empty address; otherwise the first min(6,n) characters, "...", and the last min(4,n) characters |
| Frontend.ShortenedAddressParts | frontend/app.js:647-649 | a shortened address is a prefix of the address, "...", and a suffix of it |
| Frontend.IsExpired | frontend/app.js:392-395 | definition, no contract: a timestamp is present and the age is at least 24 hours (a missing one gives NaN, never expired) |
| Frontend.ExpiryIsMonotone | frontend/app.js:392-395 | a verification is valid exactly while now < timestamp + 86400000, and once expired stays expired |
| Frontend.ClassifyVerification | frontend/app.js:359-368 | verified exactly when success; already verified exactly when not success and the message is "Already verified"; otherwise failed |
| Frontend.ShowsVerifiedExactly | frontend/app.js:99-110 | the UI shows verified exactly for a success reply or an "Already verified" reply; the backend's other refusals read as failures |
| Frontend.FindCandidate | frontend/app.js:541-542 | the index found has the requested id and no earlier candidate has it; no index means no candidate has it |
| Frontend.HistoryCandidateName | frontend/app.js:541-545 | definition, no contract: the first matching candidate's name, else "Already Voted " and the id |
| Frontend.HistoryNameOfListedCandidate | frontend/app.js:541-545 | a history item shows the name of the first candidate with its id |
| Frontend.PlaceholderCarriesId | frontend/app.js:541-545 | with no matching candidate the name is "Already Voted " followed by the id in decimal, which reads back as the id |
| Frontend.App.constructor | frontend/app.js:1-10 | currentCandidates holds the same three sample objects (Alice 0, Bob 1, Charlie 2, zero votes); both flags are false and there is no verification in memory |
| Frontend.App.InitializeWorldID | frontend/app.js:47-69 | once the flag is set: true, with no SDK call. Otherwise the SDK is called, and the flag and the result both equal the SDK's success |
| Frontend.App.CheckVerificationStatus | frontend/app.js:379-412 | nothing stored: false and nothing changes. Stored and younger than 24 hours: true, and it is loaded into memory. At or past 24 hours: false, and it is removed from storage and memory. Unparseable: false, and it is removed from storage only |
| Frontend.App.VerifyWithWorldID | frontend/app.js:71-118 | after a successful init and proof, the verification with timestamp now is kept in memory and storage; if the backend call yields a reply it is classified and the result is true whatever the reply says; if the backend call fails the result is false but the verification stays kept; a failed init or proof gives false with nothing stored |
| Frontend.App.ActivateTestMode | frontend/app.js:621-627 | test mode is on and currentCandidates holds the sample objects |
| Frontend.App.LoadCandidates | frontend/app.js:481-494 | the fetched list when present, the sample list when absent, test mode when the fetch fails |
| Frontend.App.HandleVoteTestMode | frontend/app.js:216-226 | in test mode the candidate at that position gets exactly one more vote and every other candidate keeps its count; a position outside the list changes nothing |
| Scenarios.RedeemTwice | backend/index.js:117-129 | redeeming a fresh hash twice reads as verified, then already verified; the store grows by exactly that one user |
| Scenarios.CaseInsensitiveDoubleVote | backend/index.js:160-211 | with the server's accounts[0] equal to 0xABC, a vote by 0xABC for Bob succeeds and a vote by 0xabc is then refused as a duplicate; the tally stays Alice 0, Bob 1, Charlie 0. With any other server account the record would not match and the second transaction would be sent (see RequesterAddressNotRecorded) |
| Scenarios.RequesterAddressNotRecorded | backend/index.js:192-197 | since the record keeps the server account, the same requesting address gets a second transaction sent |
| Scenarios.SimulatedVoteKeepsLedger | backend/index.js:141-148 | without a contract the vote is simulated and the tally is unchanged |
| Scenarios.SubscriptionFailureKeepsReplay | backend/index.js:54-87 | when the VoteCast subscription throws, startup reports failure, the history is already the replayed one, the contract stays bound and no listener is registered |
| Scenarios.EchoedEventIsDuplicated | backend/index.js:54-81 | an event replayed at startup and delivered again is recorded twice, and the file equals the history |
| Scenarios.FailedBackendCallStillVerified | frontend/app.js:85-116 | when the backend call fails, verifyWithWorldID reports failure, yet a status check within 24 hours reports verified |
| Scenarios.TestModeVotesSurviveReset | frontend/app.js:621-624 | a test-mode vote survives a second activateTestMode and has changed the sample candidate itself |
| Scenarios.VerificationExpiresAtOneDay | frontend/app.js:392-401 | a verification stored at time 0 is valid at 86399999 ms, dropped at 86400000 ms, and gone afterwards |

## Left out

- Express routing, CORS, static serving and HTTP status codes (backend/index.js:91-100) are left out, and so is backend/app.js. Replies are modelled by their JSON shape only.
- Reading and parsing the JSON files is left out: each file is its contents. A missing or unreadable history file would read as `[]`. An unreadable verified-users.json would give an internal-server-error reply.
- The Web3 connection, `getPastEvents`, the event subscription, `estimateGas`, `getGasPrice` and `send` are not modelled as code. Their results are parameters: `Startup` carries the fetched events and whether the subscription succeeded, and `Chain` carries the rest.
- The `/candidates` route (backend/index.js:226-254) reads the contract and is left out. The `/voting-history` route (backend/index.js:256-276) only returns the file's contents, which is `historyFile`.
- Backend.Server.Initialize: gives every replayed record the same `now`, whereas the code calls the clock once per event.
- Backend.Server.Vote: takes `voterAddress` as a string. A request without one makes `toLowerCase` throw when the history is not empty; that case is not modelled.
- Backend.Server.Vote: `candidateId` is an integer. JavaScript's coercion of ids to dictionary keys (`1`, `"1"` and `1n` are the same key) and non-numeric ids are not modelled.
- Backend.Server.Vote: `Number(gasEstimate)` is modelled as an exact integer, without floating-point rounding.
- Backend.SameVoter: models `toLowerCase` on ASCII letters only.
- Concurrency is left out: the race between the duplicate check and the append, and the listener as a second writer. The model is sequential.
- Frontend DOM rendering, Chart.js and its heartbeat interpolation, `showStatus` and `updateTransactionHistory` are left out.
- `fetch`, `localStorage` (kept as the `stored` field), `Date.now()` (the `now` parameter), the retry loops of `checkEthereumProvider` and `initializeWallet`, and the IDKit calls are not modelled as code.
- `handleWorldIDSuccess`, `fetchAndDisplayVoteCounts` and `initializeApplication` are left out. They are glue around the modelled operations.
- Frontend.App.VerifyWithWorldID: a failed backend call is one `Err`; the code fails there because `storeVerifiedUser`'s error handler calls `showMessage`, which none of the JavaScript sources defines (frontend/app.js:371-374).
- Frontend.App.HandleVoteTestMode: models only the test-mode branch of `handleVote`. The verified path that posts to `/vote` is left out.
- Frontend.Verification: keeps only `nullifier_hash` and `timestamp`. `proof` and `merkle_root` are carried along unread in the code.
- Frontend.HistoryCandidateName: `Number(item.candidateId)` of a non-numeric id (NaN) is not modelled. Ids are integers of magnitude below 2^53: JavaScript writes numbers of 1e21 or more in exponent form and loses precision above 2^53, which the decimal rendering here does not.
- frontend/WorldIDVerification.js, frontend/index.d.ts and truffle-config.js are not part of this model.
