/**
 * The bookkeeping of the Express server in backend/index.js: the vote
 * ledger (its in-memory copy and its JSON file), the verified-user store
 * and the per-candidate tally.
 *
 * The blockchain node, the contract and the clock are not modelled as
 * code: each handler takes what they returned as parameters. Writing a
 * JSON file is modelled by a `saved` flag that tells whether the write
 * went through.
 */
module Backend {
  import opened Wrappers
  import opened Text

  type Address = string
  type TxHash = string
  /** A timestamp as rendered by `Date.prototype.toISOString`. */
  type IsoTime = string

  /** One entry of the vote ledger. */
  datatype VoteRecord = VoteRecord(voter: Address, candidateId: int, transactionHash: TxHash, timestamp: IsoTime)

  /** The fields of a `VoteCast` contract event the server reads. */
  datatype VoteEvent = VoteEvent(voter: Address, candidateId: int, transactionHash: TxHash)

  /** A candidate with its vote count, as the `/candidate-votes` route renders it. */
  datatype CandidateEntry = CandidateEntry(id: int, name: string, voteCount: nat)

  /** The server's fixed candidate list. */
  const SAMPLE_CANDIDATES: seq<CandidateEntry> :=
    [CandidateEntry(0, "Alice", 0), CandidateEntry(1, "Bob", 0), CandidateEntry(2, "Charlie", 0)]

  /** One entry of verified-users.json. */
  datatype VerifiedUser = VerifiedUser(address: Option<string>, nullifierHash: string, timestamp: Option<int>)

  /** The body of a `/store-verified-user` request; any field may be missing. */
  datatype StoreRequest = StoreRequest(address: Option<string>, nullifierHash: Option<string>, timestamp: Option<int>)

  /** A `{ success, message }` JSON reply; `message` is absent on success. */
  datatype Reply = Reply(success: bool, message: Option<string>)

  const MISSING_NULLIFIER := "Missing nullifier_hash"
  const ALREADY_VERIFIED := "Already verified"
  const INTERNAL_ERROR := "Internal server error"
  const SIMULATED_VOTE := "Vote simulated (test mode)"
  const LOCAL_DUPLICATE := "Voters Address already cast a vote"
  const NO_ACCOUNTS := "No accounts available for voting"
  const DUPLICATE_VOTE := "Voters account already cast a vote"
  /** Added to the contract's gas estimate when the vote transaction is sent. */
  const GAS_MARGIN := 10000

  /** The reply of the `/vote` route. */
  datatype VoteReply =
    | Simulated(message: string, candidateId: int)
    | Recorded(transactionHash: TxHash)
    | Failed(message: string)
  {
    predicate Success() { !Failed? }
  }

  /** The vote transaction as handed to the contract's `send`. */
  datatype Transaction = Transaction(from: Address, candidateId: int, gas: int, gasPrice: int)

  /**
   * What the node answers, step by step, while a vote is submitted:
   * `getAccounts`, `estimateGas`, `getGasPrice` and the mined receipt of `send`.
   */
  datatype Chain = Chain(
    accounts: Result<seq<Address>>,
    gasEstimate: Result<int>,
    gasPrice: Result<int>,
    receipt: Result<TxHash>)

  /** How `initializeBlockchain` gets on: it fails before or after the contract is bound. */
  datatype Startup =
    | Unavailable(reason: string)
    | Deployed(pastEvents: Result<seq<VoteEvent>>, subscribed: bool)

  // ----- pure parts -----

  /** The `.toLowerCase() ===` comparison of addresses. */
  predicate SameVoter(a: Address, b: Address)
  {
    ToLower(a) == ToLower(b)
  }

  /** The `/vote` handler's `transactionHistory.some(...)` check. */
  predicate HasVoted(history: seq<VoteRecord>, address: Address)
  {
    exists i :: 0 <= i < |history| && SameVoter(history[i].voter, address)
  }

  /** Letter case in the requested address does not matter for the duplicate check. */
  lemma HasVotedIgnoresCase(history: seq<VoteRecord>, a: Address, b: Address)
    requires |a| == |b| && forall i :: 0 <= i < |a| ==> CaseVariant(a[i], b[i])
    ensures HasVoted(history, a) <==> HasVoted(history, b)
  {
    SameVoterIgnoresCase(a, b);
  }

  /** Two addresses that differ only in the case of ASCII letters are the same voter. */
  lemma SameVoterIgnoresCase(a: Address, b: Address)
    requires |a| == |b| && forall i :: 0 <= i < |a| ==> CaseVariant(a[i], b[i])
    ensures SameVoter(a, b)
  {
    forall i | 0 <= i < |a|
      ensures ToLower(a)[i] == ToLower(b)[i]
    {
      LowerCaseVariant(a[i], b[i]);
    }
  }

  /** After a record is appended, exactly its voter (ignoring case) is added to those who have voted. */
  lemma {:induction false} HasVotedAfterAppend(history: seq<VoteRecord>, record: VoteRecord, address: Address)
    ensures HasVoted(history + [record], address) <==> HasVoted(history, address) || SameVoter(record.voter, address)
  {
    var h := history + [record];
    if HasVoted(history, address) {
      var i :| 0 <= i < |history| && SameVoter(history[i].voter, address);
      assert h[i] == history[i];
    }
    if SameVoter(record.voter, address) {
      assert h[|history|] == record;
    }
    if HasVoted(h, address) {
      var i :| 0 <= i < |h| && SameVoter(h[i].voter, address);
      if i < |history| {
        assert h[i] == history[i];
      }
    }
  }

  /** The `/store-verified-user` handler's `users.some(...)` check: exact comparison. */
  predicate HasNullifier(users: seq<VerifiedUser>, hash: string)
  {
    exists i :: 0 <= i < |users| && users[i].nullifierHash == hash
  }

  /** After a user is appended, exactly its hash is added to the stored ones. */
  lemma {:induction false} HasNullifierAfterAppend(users: seq<VerifiedUser>, user: VerifiedUser, hash: string)
    ensures HasNullifier(users + [user], hash) <==> HasNullifier(users, hash) || user.nullifierHash == hash
  {
    var u := users + [user];
    if HasNullifier(users, hash) {
      var i :| 0 <= i < |users| && users[i].nullifierHash == hash;
      assert u[i] == users[i];
    }
    if user.nullifierHash == hash {
      assert u[|users|] == user;
    }
    if HasNullifier(u, hash) {
      var i :| 0 <= i < |u| && u[i].nullifierHash == hash;
      if i < |users| {
        assert u[i] == users[i];
      }
    }
  }

  /** No two stored users share a nullifier hash. */
  predicate DistinctNullifiers(users: seq<VerifiedUser>)
  {
    forall i, j :: 0 <= i < j < |users| ==> users[i].nullifierHash != users[j].nullifierHash
  }

  /** JavaScript truthiness of the request's `nullifier_hash`. */
  predicate Truthy(s: Option<string>)
  {
    s.Some? && s.value != ""
  }

  /** Whether an error message says that the voter has voted before. */
  predicate IsDuplicateMessage(m: string)
  {
    || Contains(m, "already voted")
    || Contains(m, "already cast a vote")
    || Contains(m, "Already voted")
    || Contains(m, "Voter has already voted")
  }

  /** The fixed duplicate-vote message is itself recognised as one. */
  lemma DuplicateVoteIsDuplicate()
    ensures IsDuplicateMessage(DUPLICATE_VOTE)
  {
    assert DUPLICATE_VOTE[15..34] == "already cast a vote";
    ContainsAt(DUPLICATE_VOTE, "already cast a vote", 15);
  }

  /**
   * The `/vote` handler's rewriting of an error message before it is
   * returned: a message that reads as a duplicate becomes the fixed
   * duplicate-vote message, any other is kept, and whether it reads as a
   * duplicate is kept.
   */
  function NormalizeError(m: string): (r: string)
    ensures IsDuplicateMessage(m) ==> r == DUPLICATE_VOTE
    ensures !IsDuplicateMessage(m) ==> r == m
    ensures IsDuplicateMessage(r) == IsDuplicateMessage(m)
  {
    DuplicateVoteIsDuplicate();
    if IsDuplicateMessage(m) then DUPLICATE_VOTE else m
  }

  /** Normalising an already normalised message changes nothing. */
  lemma NormalizeErrorIdempotent(m: string)
    ensures NormalizeError(NormalizeError(m)) == NormalizeError(m)
  {
  }

  /** The handler's own duplicate error is rewritten to the fixed duplicate-vote message. */
  lemma LocalDuplicateNormalized()
    ensures NormalizeError(LOCAL_DUPLICATE) == DUPLICATE_VOTE
  {
    assert LOCAL_DUPLICATE[15..34] == "already cast a vote";
    ContainsAt(LOCAL_DUPLICATE, "already cast a vote", 15);
  }

  /** The fourth pattern adds nothing: a message containing it contains the first. */
  lemma FourthPatternSubsumed(m: string)
    requires Contains(m, "Voter has already voted")
    ensures Contains(m, "already voted")
  {
    assert "Voter has already voted"[10..23] == "already voted";
    ContainsInfix(m, "Voter has already voted", 10, "already voted");
  }

  /**
   * Error normalisation against the three patterns that matter: a message
   * containing any of them becomes the fixed duplicate-vote message, and a
   * message containing none is returned unchanged.
   */
  lemma NormalizeThreePatterns(m: string)
    ensures Contains(m, "already voted") || Contains(m, "already cast a vote") || Contains(m, "Already voted")
      ==> NormalizeError(m) == DUPLICATE_VOTE
    ensures !Contains(m, "already voted") && !Contains(m, "already cast a vote") && !Contains(m, "Already voted")
      ==> NormalizeError(m) == m
  {
    if Contains(m, "Voter has already voted") {
      FourthPatternSubsumed(m);
    }
  }

  /** The message of the first step of a vote submission that fails, if any. */
  function ChainFailure(chain: Chain): (r: Option<string>)
    ensures chain.accounts.Err? ==> r == Some(chain.accounts.message)
    ensures chain.accounts.Ok? && |chain.accounts.value| > 0 && chain.gasEstimate.Err?
      ==> r == Some(chain.gasEstimate.message)
    ensures chain.accounts.Ok? && |chain.accounts.value| > 0 && chain.gasEstimate.Ok? && chain.gasPrice.Err?
      ==> r == Some(chain.gasPrice.message)
    ensures r == None <==> ReachesSend(chain) && chain.receipt.Ok?
    ensures ReachesSend(chain) ==> (r.Some? ==> r == Some(chain.receipt.message))
    ensures chain.accounts.Ok? && |chain.accounts.value| == 0 ==> r == Some(NO_ACCOUNTS)
  {
    if chain.accounts.Err? then Some(chain.accounts.message)
    else if |chain.accounts.value| == 0 then Some(NO_ACCOUNTS)
    else if chain.gasEstimate.Err? then Some(chain.gasEstimate.message)
    else if chain.gasPrice.Err? then Some(chain.gasPrice.message)
    else if chain.receipt.Err? then Some(chain.receipt.message)
    else None
  }

  /** Whether the submission gets as far as calling `send`. */
  predicate ReachesSend(chain: Chain)
  {
    chain.accounts.Ok? && |chain.accounts.value| > 0 && chain.gasEstimate.Ok? && chain.gasPrice.Ok?
  }

  // ----- the tally -----

  /** The number of ledger records for candidate `id`. */
  function CountVotes(history: seq<VoteRecord>, id: int): nat
  {
    if history == [] then 0
    else CountVotes(history[..|history| - 1], id) + (if history[|history| - 1].candidateId == id then 1 else 0)
  }

  /** The ids of the server's candidates, in order. */
  function SampleIds(): seq<int>
  {
    seq(|SAMPLE_CANDIDATES|, k requires 0 <= k < |SAMPLE_CANDIDATES| => SAMPLE_CANDIDATES[k].id)
  }

  /** The tally as it should be: each fixed candidate with its number of records. */
  function Tally(history: seq<VoteRecord>): (tally: seq<CandidateEntry>)
    ensures |tally| == |SAMPLE_CANDIDATES|
  {
    seq(|SAMPLE_CANDIDATES|, k requires 0 <= k < |SAMPLE_CANDIDATES| =>
      CandidateEntry(SAMPLE_CANDIDATES[k].id, SAMPLE_CANDIDATES[k].name, CountVotes(history, SAMPLE_CANDIDATES[k].id)))
  }

  /**
   * The `/candidate-votes` route: a dictionary of counts filled by one pass
   * over the ledger, then projected onto the candidate list with 0 for a
   * candidate that has no entry.
   */
  method TallyVotes(history: seq<VoteRecord>) returns (tally: seq<CandidateEntry>)
    ensures |tally| == |SAMPLE_CANDIDATES|
    ensures forall k :: 0 <= k < |tally| ==>
      tally[k].id == SAMPLE_CANDIDATES[k].id && tally[k].name == SAMPLE_CANDIDATES[k].name
    ensures forall k :: 0 <= k < |tally| ==> tally[k].voteCount == CountVotes(history, tally[k].id)
    ensures tally == Tally(history)
  {
    var voteCounts: map<int, nat> := map[];
    var i := 0;
    while i < |history|
      invariant 0 <= i <= |history|
      invariant forall id :: id in voteCounts <==> CountVotes(history[..i], id) > 0
      invariant forall id :: id in voteCounts ==> voteCounts[id] == CountVotes(history[..i], id)
    {
      assert history[..i + 1][..i] == history[..i];
      var id := history[i].candidateId;
      if id !in voteCounts {
        voteCounts := voteCounts[id := 0];
      }
      voteCounts := voteCounts[id := voteCounts[id] + 1];
      i := i + 1;
    }
    assert history[..i] == history;
    tally := seq(|SAMPLE_CANDIDATES|, k requires 0 <= k < |SAMPLE_CANDIDATES| =>
      var c := SAMPLE_CANDIDATES[k];
      CandidateEntry(c.id, c.name, if c.id in voteCounts then voteCounts[c.id] else 0));
  }

  /** The number of records whose candidate is one of `ids`. */
  function CountAmong(history: seq<VoteRecord>, ids: seq<int>): nat
  {
    if history == [] then 0
    else CountAmong(history[..|history| - 1], ids) + (if history[|history| - 1].candidateId in ids then 1 else 0)
  }

  function SumCounts(history: seq<VoteRecord>, ids: seq<int>): nat
  {
    if ids == [] then 0 else CountVotes(history, ids[0]) + SumCounts(history, ids[1..])
  }

  function SumVotes(tally: seq<CandidateEntry>): nat
  {
    if tally == [] then 0 else tally[0].voteCount + SumVotes(tally[1..])
  }

  predicate DistinctIds(ids: seq<int>)
  {
    forall i, j :: 0 <= i < j < |ids| ==> ids[i] != ids[j]
  }

  /** Adding one record adds one to the sum over distinct ids exactly when its candidate is among them. */
  lemma {:induction false} SumCountsStep(history: seq<VoteRecord>, ids: seq<int>)
    requires history != [] && DistinctIds(ids)
    ensures SumCounts(history, ids) ==
      SumCounts(history[..|history| - 1], ids) + (if history[|history| - 1].candidateId in ids then 1 else 0)
  {
    if ids != [] {
      assert DistinctIds(ids[1..]);
      SumCountsStep(history, ids[1..]);
      var last := history[|history| - 1].candidateId;
      assert last in ids <==> last == ids[0] || last in ids[1..];
      assert last == ids[0] ==> last !in ids[1..];
    }
  }

  lemma {:induction false} SumCountsIsCountAmong(history: seq<VoteRecord>, ids: seq<int>)
    requires DistinctIds(ids)
    ensures SumCounts(history, ids) == CountAmong(history, ids)
    decreases |history|
  {
    if history == [] {
      SumCountsEmpty(ids);
    } else {
      SumCountsStep(history, ids);
      SumCountsIsCountAmong(history[..|history| - 1], ids);
    }
  }

  lemma {:induction false} SumCountsEmpty(ids: seq<int>)
    ensures SumCounts([], ids) == 0
  {
    if ids != [] {
      SumCountsEmpty(ids[1..]);
    }
  }

  /** Every record of a candidate in `ids` is counted: `CountAmong` reaches the length when all are. */
  lemma {:induction false} CountAmongAll(history: seq<VoteRecord>, ids: seq<int>)
    requires forall i :: 0 <= i < |history| ==> history[i].candidateId in ids
    ensures CountAmong(history, ids) == |history|
  {
    if history != [] {
      CountAmongAll(history[..|history| - 1], ids);
    }
  }

  /**
   * The counts of the tally add up to the number of records whose
   * candidate is one of the fixed candidates; records for any other
   * candidate id are not shown.
   */
  lemma TallyTotal(history: seq<VoteRecord>)
    ensures SumVotes(Tally(history)) == CountAmong(history, SampleIds())
  {
    var ids := SampleIds();
    var t := Tally(history);
    assert SumVotes(t) == t[0].voteCount + t[1].voteCount + t[2].voteCount by {
      assert SumVotes(t[1..][1..][1..]) == 0;
      assert SumVotes(t[1..][1..]) == t[2].voteCount;
      assert SumVotes(t[1..]) == t[1].voteCount + t[2].voteCount;
    }
    assert SumCounts(history, ids) == CountVotes(history, 0) + CountVotes(history, 1) + CountVotes(history, 2) by {
      assert ids == [0, 1, 2];
      assert SumCounts(history, [2]) == CountVotes(history, 2);
      assert SumCounts(history, [1, 2]) == CountVotes(history, 1) + CountVotes(history, 2) by {
        assert [1, 2][1..] == [2];
      }
      assert [0, 1, 2][1..] == [1, 2];
    }
    SumCountsIsCountAmong(history, ids);
  }

  /** When every record names a fixed candidate, the tally accounts for every record. */
  lemma TallyCountsEveryKnownVote(history: seq<VoteRecord>)
    requires forall i :: 0 <= i < |history| ==> history[i].candidateId in SampleIds()
    ensures SumVotes(Tally(history)) == |history|
  {
    TallyTotal(history);
    CountAmongAll(history, SampleIds());
  }

  // ----- the server state -----

  /**
   * The server process: whether `contract` is bound, whether the
   * `VoteCast` listener is registered, the module-level `transactionHistory`
   * and the contents of the two JSON files.
   */
  class Server {
    var contractReady: bool
    var listening: bool
    /** The module-level `transactionHistory`. */
    var history: seq<VoteRecord>
    /** The contents of transactionHistory.json. */
    var historyFile: seq<VoteRecord>
    /** The contents of verified-users.json. */
    var usersFile: seq<VerifiedUser>

    /**
     * Process start: the in-memory history is loaded from the history file,
     * and verified-users.json (created as `[]` when missing) is `savedUsers`.
     */
    constructor (savedHistory: seq<VoteRecord>, savedUsers: seq<VerifiedUser>)
      ensures !contractReady && !listening
      ensures history == savedHistory && historyFile == savedHistory && usersFile == savedUsers
    {
      contractReady, listening := false, false;
      history, historyFile, usersFile := savedHistory, savedHistory, savedUsers;
    }

    /**
     * `initializeBlockchain`: when the contract is bound and the past events
     * are fetched, the in-memory history is replaced by one record per event;
     * then the listener is registered. A failure after binding the contract
     * leaves it bound (the server is then not in simulation mode); a failed
     * fetch replays nothing, and a failed subscription keeps the replayed
     * history but registers no listener. The history file is not written.
     */
    method Initialize(startup: Startup, now: IsoTime) returns (ok: bool)
      modifies this`contractReady, this`listening, this`history
      ensures ok <==> startup.Deployed? && startup.pastEvents.Ok? && startup.subscribed
      ensures contractReady == (startup.Deployed? || old(contractReady))
      ensures listening == (ok || old(listening))
      ensures startup.Deployed? && startup.pastEvents.Ok? ==> |history| == |startup.pastEvents.value|
      ensures startup.Deployed? && startup.pastEvents.Ok? ==> forall i :: 0 <= i < |history| ==>
        var e := startup.pastEvents.value[i];
        history[i] == VoteRecord(e.voter, e.candidateId, e.transactionHash, now)
      ensures !(startup.Deployed? && startup.pastEvents.Ok?) ==> history == old(history)
    {
      ok := false;
      match startup
      case Unavailable(_) =>
      case Deployed(past, subscribed) =>
        contractReady := true;
        if past.Ok? {
          var events := past.value;
          history := seq(|events|, i requires 0 <= i < |events| =>
            VoteRecord(events[i].voter, events[i].candidateId, events[i].transactionHash, now));
          if subscribed {
            listening := true;
            ok := true;
          }
        }
    }

    /**
     * The `VoteCast` listener: an event is appended to the in-memory history
     * whatever its transaction hash, and the whole history is then written
     * over the history file. A listener error changes nothing.
     */
    method OnVoteCast(event: Result<VoteEvent>, now: IsoTime, saved: bool)
      requires listening
      modifies this`history, this`historyFile
      ensures event.Err? ==> history == old(history) && historyFile == old(historyFile)
      ensures event.Ok? ==> (history ==
        old(history) + [VoteRecord(event.value.voter, event.value.candidateId, event.value.transactionHash, now)])
      ensures event.Ok? ==> historyFile == if saved then history else old(historyFile)
    {
      if event.Ok? {
        var e := event.value;
        history := history + [VoteRecord(e.voter, e.candidateId, e.transactionHash, now)];
        if saved {
          historyFile := history;
        }
      }
    }

    /**
     * The `/store-verified-user` route: a missing or empty nullifier hash is
     * rejected, a hash already stored is reported as already verified, and
     * a fresh one is appended. A failed write of the file is an internal error.
     */
    method StoreVerifiedUser(request: StoreRequest, saved: bool) returns (reply: Reply)
      modifies this`usersFile
      ensures !Truthy(request.nullifierHash) ==>
        reply == Reply(false, Some(MISSING_NULLIFIER)) && usersFile == old(usersFile)
      ensures Truthy(request.nullifierHash) && HasNullifier(old(usersFile), request.nullifierHash.value) ==>
        reply == Reply(false, Some(ALREADY_VERIFIED)) && usersFile == old(usersFile)
      ensures Truthy(request.nullifierHash) && !HasNullifier(old(usersFile), request.nullifierHash.value) ==>
        if saved then
          reply == Reply(true, None) &&
          usersFile == old(usersFile) + [VerifiedUser(request.address, request.nullifierHash.value, request.timestamp)]
        else
          reply == Reply(false, Some(INTERNAL_ERROR)) && usersFile == old(usersFile)
      ensures reply.success <==> |usersFile| == |old(usersFile)| + 1
      ensures DistinctNullifiers(old(usersFile)) ==> DistinctNullifiers(usersFile)
    {
      if !Truthy(request.nullifierHash) {
        return Reply(false, Some(MISSING_NULLIFIER));
      }
      var hash := request.nullifierHash.value;
      if HasNullifier(usersFile, hash) {
        return Reply(false, Some(ALREADY_VERIFIED));
      }
      if !saved {
        return Reply(false, Some(INTERNAL_ERROR));
      }
      usersFile := usersFile + [VerifiedUser(request.address, hash, request.timestamp)];
      reply := Reply(true, None);
    }

    /**
     * The `/vote` route. Without a contract the vote is only simulated.
     * Otherwise the history FILE (not the in-memory history) is checked for
     * the requesting address, ignoring case; then the chain is asked for an
     * account, a gas estimate and a gas price, the transaction is sent, and
     * a record whose voter is the server's first account is appended to the
     * file. Every error message is normalised before it is returned.
     * `sent` is the transaction handed to the contract, if it got that far.
     */
    method Vote(candidateId: int, voterAddress: Address, chain: Chain, now: IsoTime, saved: bool)
      returns (reply: VoteReply, sent: Option<Transaction>)
      modifies this`historyFile
      ensures !contractReady ==>
        reply == Simulated(SIMULATED_VOTE, candidateId) && sent == None && historyFile == old(historyFile)
      ensures contractReady && HasVoted(old(historyFile), voterAddress) ==>
        reply == Failed(DUPLICATE_VOTE) && sent == None
      ensures sent.Some? <==> contractReady && !HasVoted(old(historyFile), voterAddress) && ReachesSend(chain)
      ensures sent.Some? ==> (sent.value ==
        Transaction(chain.accounts.value[0], candidateId, chain.gasEstimate.value + GAS_MARGIN, chain.gasPrice.value))
      ensures reply.Recorded? <==>
        contractReady && !HasVoted(old(historyFile), voterAddress) && ChainFailure(chain) == None
      ensures reply.Recorded? ==> (reply.transactionHash == chain.receipt.value &&
        historyFile == old(historyFile) +
          (if saved then [VoteRecord(chain.accounts.value[0], candidateId, chain.receipt.value, now)] else []))
      ensures !reply.Recorded? ==> historyFile == old(historyFile)
      ensures contractReady && !HasVoted(old(historyFile), voterAddress) && ChainFailure(chain).Some? ==>
        reply == Failed(NormalizeError(ChainFailure(chain).value))
    {
      sent := None;
      if !contractReady {
        return Simulated(SIMULATED_VOTE, candidateId), sent;
      }
      var ledger := historyFile;
      if HasVoted(ledger, voterAddress) {
        LocalDuplicateNormalized();
        return Failed(NormalizeError(LOCAL_DUPLICATE)), sent;
      }
      if chain.accounts.Err? {
        return Failed(NormalizeError(chain.accounts.message)), sent;
      }
      var accounts := chain.accounts.value;
      if |accounts| == 0 {
        return Failed(NormalizeError(NO_ACCOUNTS)), sent;
      }
      if chain.gasEstimate.Err? {
        return Failed(NormalizeError(chain.gasEstimate.message)), sent;
      }
      if chain.gasPrice.Err? {
        return Failed(NormalizeError(chain.gasPrice.message)), sent;
      }
      sent := Some(Transaction(accounts[0], candidateId, chain.gasEstimate.value + GAS_MARGIN, chain.gasPrice.value));
      if chain.receipt.Err? {
        return Failed(NormalizeError(chain.receipt.message)), sent;
      }
      var hash := chain.receipt.value;
      ledger := ledger + [VoteRecord(accounts[0], candidateId, hash, now)];
      if saved {
        historyFile := ledger;
      }
      reply := Recorded(hash);
    }

    /** The `/candidate-votes` route: the tally of the history file. */
    method CandidateVotes() returns (tally: seq<CandidateEntry>)
      ensures tally == Tally(historyFile)
    {
      tally := TallyVotes(historyFile);
    }
  }
}
