/**
 * Runs of the server and the client through several calls, stated as
 * methods whose postconditions fix the outcome of each step.
 */
module Scenarios {
  import opened Wrappers
  import opened Text
  import opened Backend
  import Frontend

  /**
   * Redeeming a fresh nullifier hash twice: the first reply reads as
   * verified, the second as already verified, and the store has grown by
   * exactly the one new user.
   */
  method RedeemTwice(users: seq<VerifiedUser>, request: StoreRequest)
    returns (first: Frontend.VerificationOutcome, second: Frontend.VerificationOutcome, stored: seq<VerifiedUser>)
    requires Truthy(request.nullifierHash) && !HasNullifier(users, request.nullifierHash.value)
    ensures first == Frontend.Verified && second == Frontend.AlreadyVerified
    ensures stored == users + [VerifiedUser(request.address, request.nullifierHash.value, request.timestamp)]
    ensures DistinctNullifiers(users) ==> DistinctNullifiers(stored)
  {
    var server := new Server([], users);
    var reply1 := server.StoreVerifiedUser(request, true);
    assert reply1 == Reply(true, None);
    assert HasNullifier(server.usersFile, request.nullifierHash.value) by {
      assert server.usersFile[|users|].nullifierHash == request.nullifierHash.value;
    }
    var reply2 := server.StoreVerifiedUser(request, true);
    assert reply2 == Reply(false, Some(ALREADY_VERIFIED));
    first := Frontend.ClassifyVerification(reply1);
    second := Frontend.ClassifyVerification(reply2);
    stored := server.usersFile;
  }

  /**
   * Address "0xABC" votes for candidate 1 through a server whose account
   * is that address; then "0xabc" tries candidate 0 and is refused as a
   * duplicate, and the tally stays Alice 0, Bob 1, Charlie 0.
   */
  method CaseInsensitiveDoubleVote() returns (first: VoteReply, second: VoteReply, before: seq<CandidateEntry>, after: seq<CandidateEntry>)
    ensures first == Recorded("0x1") && second == Failed(DUPLICATE_VOTE)
    ensures before == after ==
      [CandidateEntry(0, "Alice", 0), CandidateEntry(1, "Bob", 1), CandidateEntry(2, "Charlie", 0)]
  {
    var server := new Server([], []);
    var ok := server.Initialize(Deployed(Ok([]), true), "t0");
    var chain := Chain(Ok(["0xABC"]), Ok(50000), Ok(1), Ok("0x1"));
    assert !HasVoted([], "0xABC");
    var sent;
    first, sent := server.Vote(1, "0xABC", chain, "t1", true);
    var record := VoteRecord("0xABC", 1, "0x1", "t1");
    assert server.historyFile == [record];
    OneVoteForBob(record);
    before := server.CandidateVotes();
    VotedUnderOtherCase(record);
    second, sent := server.Vote(0, "0xabc", Chain(Ok(["0xabc"]), Ok(50000), Ok(1), Ok("0x2")), "t2", true);
    after := server.CandidateVotes();
  }

  /** A ledger holding one vote for candidate 1 tallies as Alice 0, Bob 1, Charlie 0. */
  lemma OneVoteForBob(record: VoteRecord)
    requires record.candidateId == 1
    ensures Tally([record]) ==
      [CandidateEntry(0, "Alice", 0), CandidateEntry(1, "Bob", 1), CandidateEntry(2, "Charlie", 0)]
  {
    var ledger := [record];
    assert ledger[..|ledger| - 1] == [];
    assert CountVotes(ledger, 0) == 0;
    assert CountVotes(ledger, 1) == 1;
    assert CountVotes(ledger, 2) == 0;
  }

  /** A ledger recording "0xABC" counts "0xabc" as having voted. */
  lemma VotedUnderOtherCase(record: VoteRecord)
    requires record.voter == "0xABC"
    ensures HasVoted([record], "0xabc")
  {
    assert ToLower("0xABC") == ToLower("0xabc") by {
      assert LowerChar('A') == 'a' && LowerChar('B') == 'b' && LowerChar('C') == 'c';
    }
    assert SameVoter([record][0].voter, "0xabc");
  }

  /**
   * The ledger keeps the server's account, not the requesting address: a
   * second request from the same address is not refused locally and its
   * transaction is sent again (only the contract can refuse it).
   */
  method RequesterAddressNotRecorded() returns (firstSent: Option<Transaction>, secondSent: Option<Transaction>)
    ensures firstSent == Some(Transaction("0xSRV", 1, 60000, 2))
    ensures secondSent == Some(Transaction("0xSRV", 2, 60000, 2))
  {
    var server := new Server([], []);
    var ok := server.Initialize(Deployed(Ok([]), true), "t0");
    assert !HasVoted([], "0xabc");
    var reply;
    reply, firstSent := server.Vote(1, "0xabc", Chain(Ok(["0xSRV"]), Ok(50000), Ok(2), Ok("0x1")), "t1", true);
    assert server.historyFile == [VoteRecord("0xSRV", 1, "0x1", "t1")];
    assert !HasVoted(server.historyFile, "0xabc") by {
      assert ToLower("0xSRV")[2] == 's' && ToLower("0xabc")[2] == 'a';
    }
    reply, secondSent := server.Vote(2, "0xabc", Chain(Ok(["0xSRV"]), Ok(50000), Ok(2), Ok("0x2")), "t2", true);
  }

  /**
   * Without a contract, a vote is simulated: the reply echoes the candidate
   * and the history file, hence the tally, is untouched.
   */
  method SimulatedVoteKeepsLedger(saved: seq<VoteRecord>, reason: string) returns (reply: VoteReply, before: seq<CandidateEntry>, after: seq<CandidateEntry>)
    ensures reply == Simulated("Vote simulated (test mode)", 0)
    ensures before == after == Tally(saved)
  {
    var server := new Server(saved, []);
    var ok := server.Initialize(Unavailable(reason), "t0");
    before := server.CandidateVotes();
    var sent;
    reply, sent := server.Vote(0, "0xany", Chain(Err("unused"), Err("unused"), Err("unused"), Err("unused")), "t1", true);
    after := server.CandidateVotes();
  }

  /**
   * A vote event replayed at startup and delivered again by the listener is
   * recorded twice: the listener does not look at transaction hashes.
   */
  method EchoedEventIsDuplicated() returns (history: seq<VoteRecord>, file: seq<VoteRecord>)
    ensures |history| == 2
    ensures history[0].transactionHash == history[1].transactionHash == "0x1"
    ensures file == history
  {
    var server := new Server([], []);
    var event := VoteEvent("0xA", 0, "0x1");
    var ok := server.Initialize(Deployed(Ok([event]), true), "t0");
    server.OnVoteCast(Ok(event), "t1", true);
    history, file := server.history, server.historyFile;
  }

  /**
   * A startup whose `VoteCast` subscription fails reports failure, yet the
   * history has already been replaced by the replayed events, the contract
   * stays bound and no listener is registered.
   */
  method SubscriptionFailureKeepsReplay(saved: seq<VoteRecord>) returns (ok: bool, history: seq<VoteRecord>, bound: bool, listening: bool)
    ensures !ok && bound && !listening
    ensures history == [VoteRecord("0xA", 0, "0x1", "t0")]
  {
    var server := new Server(saved, []);
    ok := server.Initialize(Deployed(Ok([VoteEvent("0xA", 0, "0x1")]), false), "t0");
    history, bound, listening := server.history, server.contractReady, server.listening;
  }

  /**
   * `activateTestMode` copies the array but not the candidate objects: a
   * test-mode vote survives a second activation, and the sample list itself
   * has changed.
   */
  method TestModeVotesSurviveReset() returns (shown: int, sampleCount: int)
    ensures shown == 1 && sampleCount == 1
  {
    var app := new Frontend.App(None);
    app.ActivateTestMode();
    var result := app.HandleVoteTestMode(1);
    app.ActivateTestMode();
    shown := app.currentCandidates[1].voteCount;
    sampleCount := app.sample[1].voteCount;
  }

  /**
   * A verification stored at time 0 is valid one millisecond before 24
   * hours, is dropped at exactly 24 hours, and is gone afterwards.
   */
  method VerificationExpiresAtOneDay(hash: string) returns (early: bool, atDay: bool, afterwards: bool)
    ensures early && !atDay && !afterwards
  {
    var v := Frontend.Verification(Some(hash), Some(0));
    var app := new Frontend.App(Some(Frontend.Parsed(v)));
    early := app.CheckVerificationStatus(86_399_999);
    atDay := app.CheckVerificationStatus(86_400_000);
    afterwards := app.CheckVerificationStatus(0);
  }

  /**
   * A verification whose backend call fails is still kept by the client:
   * `verifyWithWorldID` reports failure, yet a later status check within
   * 24 hours reports the user as verified although the backend never
   * stored the nullifier hash.
   */
  method FailedBackendCallStillVerified(hash: string, error: string) returns (ok: bool, laterVerified: bool)
    ensures !ok && laterVerified
  {
    var app := new Frontend.App(None);
    var outcome;
    ok, outcome := app.VerifyWithWorldID(true, Ok(Some(hash)), Err(error), 1000);
    laterVerified := app.CheckVerificationStatus(2000);
  }
}
