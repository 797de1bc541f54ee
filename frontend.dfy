/**
 * The browser client in frontend/app.js: its module-level state (the
 * candidate list, the test-mode and World ID flags, the verification held
 * in memory and in `localStorage`) and the small pure helpers it renders
 * with. DOM updates, `fetch`, the IDKit SDK and `Date.now()` are not
 * modelled as code: what they return is passed in.
 */
module Frontend {
  import opened Wrappers
  import opened Text
  import Backend

  /** 24 hours in milliseconds. */
  const MAX_VERIFICATION_AGE: int := 24 * 60 * 60 * 1000

  /** A World ID verification as the client keeps it (`proof` and `merkle_root` are carried along unread). */
  datatype Verification = Verification(nullifierHash: Option<string>, timestamp: Option<int>)

  /** The `localStorage` item `worldIDVerification`: JSON that parses, or text that does not. */
  datatype StoredItem = Parsed(verification: Verification) | Unparseable

  /** How the client reads the backend's reply to a verification. */
  datatype VerificationOutcome = Verified | AlreadyVerified | VerificationFailed

  /** What `handleVote` does on its test-mode branch. */
  datatype TestVote = SimulatedLocally | NoSuchCandidate | NotTestMode

  /** A candidate object; `handleVote` increments its `voteCount` in place. */
  class Candidate {
    const id: int
    const name: string
    var voteCount: int

    constructor (id: int, name: string, voteCount: int)
      ensures this.id == id && this.name == name && this.voteCount == voteCount
    {
      this.id, this.name, this.voteCount := id, name, voteCount;
    }
  }

  /** The candidates list a successful `/candidates` fetch delivers, or a failed fetch. */
  datatype CandidatesFetch = FetchFailed | Fetched(candidates: Option<seq<Candidate>>)

  /** No candidate object occurs twice. */
  predicate DistinctObjects(cs: seq<Candidate>)
  {
    forall i, j :: 0 <= i < j < |cs| ==> cs[i] != cs[j]
  }

  // ----- pure helpers -----

  function Min(a: int, b: int): int
  {
    if a <= b then a else b
  }

  /**
   * `shortenAddress`: the first six and the last four characters around
   * "...", by way of `substring`; "" for an absent or empty address.
   */
  function ShortenAddress(address: Option<string>): (r: string)
    ensures address.None? || address.value == "" ==> r == ""
    ensures address.Some? && address.value != "" ==>
      var s := address.value;
      r == s[..Min(6, |s|)] + "..." + s[|s| - Min(4, |s|)..]
  {
    match address
    case None => ""
    case Some(s) => if s == "" then "" else Substring(s, 0, 6) + "..." + SubstringFrom(s, |s| - 4)
  }

  /** A shortened non-empty address is a prefix, "...", then a suffix of the address. */
  lemma ShortenedAddressParts(s: string) returns (p: string, q: string)
    requires s != ""
    ensures ShortenAddress(Some(s)) == p + "..." + q
    ensures StartsWith(s, p) && |p| == Min(6, |s|)
    ensures |q| == Min(4, |s|) && s[|s| - |q|..] == q
  {
    p, q := s[..Min(6, |s|)], s[|s| - Min(4, |s|)..];
  }

  /**
   * The expiry test of `checkVerificationStatus`. A missing timestamp makes
   * the age `NaN`, which never compares as old enough, so such a
   * verification never expires.
   */
  predicate IsExpired(now: int, timestamp: Option<int>)
  {
    timestamp.Some? && now - timestamp.value >= MAX_VERIFICATION_AGE
  }

  /** Once a verification has expired it stays expired; before 24 hours it is valid. */
  lemma ExpiryIsMonotone(now: int, later: int, timestamp: int)
    requires now <= later
    ensures IsExpired(now, Some(timestamp)) ==> IsExpired(later, Some(timestamp))
    ensures !IsExpired(now, Some(timestamp)) <==> now < timestamp + 86_400_000
  {
  }

  /**
   * The three-way reading of a `/store-verified-user` reply, shared by
   * `storeVerifiedUser` and `verifyWithWorldID`.
   */
  function ClassifyVerification(reply: Backend.Reply): (o: VerificationOutcome)
    ensures o == Verified <==> reply.success
    ensures o == AlreadyVerified <==> !reply.success && reply.message == Some(Backend.ALREADY_VERIFIED)
  {
    if reply.success then Verified
    else if reply.message == Some("Already verified") then AlreadyVerified
    else VerificationFailed
  }

  /** Whether the UI is switched to "Verified" for an outcome. */
  predicate ShowsVerified(o: VerificationOutcome)
  {
    o != VerificationFailed
  }

  /** The UI shows "Verified" for exactly the two replies of the backend that mean the hash is stored. */
  lemma ShowsVerifiedExactly(reply: Backend.Reply)
    ensures ShowsVerified(ClassifyVerification(reply)) <==>
      reply.success || reply.message == Some(Backend.ALREADY_VERIFIED)
    ensures ClassifyVerification(Backend.Reply(false, Some(Backend.MISSING_NULLIFIER))) == VerificationFailed
    ensures ClassifyVerification(Backend.Reply(false, Some(Backend.INTERNAL_ERROR))) == VerificationFailed
  {
  }

  /** `currentCandidates.find(c => c.id === id)`: the index of the first candidate with that id. */
  function FindCandidate(cs: seq<Candidate>, id: int): (r: Option<nat>)
    ensures r.Some? ==> r.value < |cs| && cs[r.value].id == id
    ensures r.Some? ==> forall j :: 0 <= j < r.value ==> cs[j].id != id
    ensures r.None? ==> forall j :: 0 <= j < |cs| ==> cs[j].id != id
  {
    if cs == [] then None
    else if cs[0].id == id then Some(0)
    else match FindCandidate(cs[1..], id)
      case None => None
      case Some(k) => Some(k + 1)
  }

  /** The candidate name `loadVotingHistory` shows for a history item. */
  function HistoryCandidateName(cs: seq<Candidate>, candidateId: int): string
  {
    match FindCandidate(cs, candidateId)
    case Some(k) => cs[k].name
    case None => "Already Voted " + IntToDecimal(candidateId)
  }

  /** A history item for a listed candidate shows the name of the first candidate with its id. */
  lemma HistoryNameOfListedCandidate(cs: seq<Candidate>, candidateId: int, k: nat)
    requires k < |cs| && cs[k].id == candidateId
    requires forall j :: 0 <= j < k ==> cs[j].id != candidateId
    ensures HistoryCandidateName(cs, candidateId) == cs[k].name
  {
  }

  /** A history item for an unlisted candidate shows a placeholder from which its id can be read back. */
  lemma PlaceholderCarriesId(cs: seq<Candidate>, candidateId: int)
    requires forall j :: 0 <= j < |cs| ==> cs[j].id != candidateId
    ensures var name := HistoryCandidateName(cs, candidateId);
      StartsWith(name, "Already Voted ") && ParseInt(name[14..]) == candidateId
  {
    var name := HistoryCandidateName(cs, candidateId);
    assert name[14..] == IntToDecimal(candidateId);
    IntDecimalRoundTrip(candidateId);
  }

  // ----- the client state -----

  /** The module-level state of frontend/app.js. */
  class App {
    /** `SAMPLE_CANDIDATES`: a constant array of three candidate objects. */
    const sample: seq<Candidate>
    var currentCandidates: seq<Candidate>
    var isTestMode: bool
    var worldIDInitialized: bool
    /** The module-level `worldIDVerification`. */
    var worldIDVerification: Option<Verification>
    /** `localStorage.getItem('worldIDVerification')`; an empty string counts as absent. */
    var stored: Option<StoredItem>

    ghost predicate Valid()
      reads this
    {
      && |sample| == 3
      && sample[0].id == 0 && sample[0].name == "Alice"
      && sample[1].id == 1 && sample[1].name == "Bob"
      && sample[2].id == 2 && sample[2].name == "Charlie"
      && DistinctObjects(sample)
      && DistinctObjects(currentCandidates)
    }

    /** Script load: `currentCandidates` is a copy of the array `SAMPLE_CANDIDATES`, holding the same objects. */
    constructor (stored: Option<StoredItem>)
      ensures Valid() && fresh(sample[0]) && fresh(sample[1]) && fresh(sample[2])
      ensures forall k :: 0 <= k < 3 ==> sample[k].voteCount == 0
      ensures currentCandidates == sample
      ensures !isTestMode && !worldIDInitialized && worldIDVerification == None && this.stored == stored
    {
      var alice := new Candidate(0, "Alice", 0);
      var bob := new Candidate(1, "Bob", 0);
      var charlie := new Candidate(2, "Charlie", 0);
      sample := [alice, bob, charlie];
      currentCandidates := [alice, bob, charlie];
      isTestMode, worldIDInitialized := false, false;
      worldIDVerification := None;
      this.stored := stored;
    }

    /**
     * `initializeWorldID`: once the flag is set the SDK is not asked again;
     * otherwise the flag records whether the SDK's `init` succeeded.
     * `initCalled` tells whether `init` was called.
     */
    method InitializeWorldID(sdkInitSucceeds: bool) returns (ok: bool, initCalled: bool)
      modifies this`worldIDInitialized
      ensures old(worldIDInitialized) ==> ok && !initCalled && worldIDInitialized
      ensures !old(worldIDInitialized) ==> initCalled && ok == sdkInitSucceeds && worldIDInitialized == sdkInitSucceeds
    {
      if worldIDInitialized {
        return true, false;
      }
      initCalled := true;
      worldIDInitialized := sdkInitSucceeds;
      ok := sdkInitSucceeds;
    }

    /**
     * `checkVerificationStatus` at time `now` (milliseconds): a stored
     * verification younger than 24 hours is loaded and valid; an older one
     * is removed from storage and memory; an unparseable one is removed
     * from storage only.
     */
    method CheckVerificationStatus(now: int) returns (verified: bool)
      modifies this`worldIDVerification, this`stored
      ensures old(stored).None? ==>
        !verified && stored == None && worldIDVerification == old(worldIDVerification)
      ensures old(stored) == Some(Unparseable) ==>
        !verified && stored == None && worldIDVerification == old(worldIDVerification)
      ensures old(stored).Some? && old(stored).value.Parsed? ==>
        var v := old(stored).value.verification;
        && verified == !IsExpired(now, v.timestamp)
        && (verified ==> stored == old(stored) && worldIDVerification == Some(v))
        && (!verified ==> stored == None && worldIDVerification == None)
    {
      if stored.None? {
        return false;
      }
      match stored.value
      case Unparseable =>
        stored := None;
        verified := false;
      case Parsed(v) =>
        worldIDVerification := Some(v);
        if IsExpired(now, v.timestamp) {
          stored := None;
          worldIDVerification := None;
          verified := false;
        } else {
          verified := true;
        }
    }

    /**
     * `verifyWithWorldID`: after a successful SDK init and proof, the proof's
     * nullifier hash is kept with timestamp `now` in memory and in storage
     * before the backend is called. When the backend call yields a reply, it
     * is classified and the call reports success whatever the reply says.
     * When the backend call fails (`Err`), `storeVerifiedUser`'s own handler
     * throws, since `showMessage` is a function
     * which none of the JavaScript sources defines, and the call reports
     * failure with the verification still kept.
     */
    method VerifyWithWorldID(sdkInitSucceeds: bool, proof: Result<Option<string>>, reply: Result<Backend.Reply>, now: int)
      returns (ok: bool, outcome: Option<VerificationOutcome>)
      modifies this`worldIDInitialized, this`worldIDVerification, this`stored
      ensures ok <==> (old(worldIDInitialized) || sdkInitSucceeds) && proof.Ok? && reply.Ok?
      ensures ok ==> outcome == Some(ClassifyVerification(reply.value))
      ensures !ok ==> outcome == None
      ensures (old(worldIDInitialized) || sdkInitSucceeds) && proof.Ok? ==>
        var v := Verification(proof.value, Some(now));
        worldIDVerification == Some(v) && stored == Some(Parsed(v))
      ensures !((old(worldIDInitialized) || sdkInitSucceeds) && proof.Ok?) ==>
        worldIDVerification == old(worldIDVerification) && stored == old(stored)
      ensures worldIDInitialized == (old(worldIDInitialized) || sdkInitSucceeds)
    {
      var initOk, _ := InitializeWorldID(sdkInitSucceeds);
      if !initOk || proof.Err? {
        return false, None;
      }
      var v := Verification(proof.value, Some(now));
      worldIDVerification := Some(v);
      stored := Some(Parsed(v));
      if reply.Err? {
        return false, None;
      }
      outcome := Some(ClassifyVerification(reply.value));
      ok := true;
    }

    /** `activateTestMode`: the candidate list becomes a fresh array holding the sample objects. */
    method ActivateTestMode()
      requires Valid()
      modifies this`isTestMode, this`currentCandidates
      ensures Valid()
      ensures isTestMode && currentCandidates == sample
    {
      isTestMode := true;
      currentCandidates := sample;
    }

    /**
     * `loadCandidates`: the fetched list when the reply has one, the sample
     * array itself when it has none, and test mode when the fetch fails.
     * A parsed JSON list holds distinct objects.
     */
    method LoadCandidates(fetch: CandidatesFetch)
      requires Valid()
      requires fetch.Fetched? && fetch.candidates.Some? ==> DistinctObjects(fetch.candidates.value)
      modifies this`isTestMode, this`currentCandidates
      ensures Valid()
      ensures fetch.FetchFailed? ==> isTestMode && currentCandidates == sample
      ensures fetch.Fetched? ==> isTestMode == old(isTestMode)
      ensures fetch.Fetched? && fetch.candidates.Some? ==> currentCandidates == fetch.candidates.value
      ensures fetch.Fetched? && fetch.candidates.None? ==> currentCandidates == sample
    {
      match fetch
      case FetchFailed =>
        ActivateTestMode();
      case Fetched(candidates) =>
        currentCandidates := if candidates.Some? then candidates.value else sample;
    }

    /**
     * The test-mode branch of `handleVote`: the candidate at POSITION
     * `candidateId` gets one more vote and nothing else changes; a position
     * outside the list throws, which `handleVote` reports. No request is made.
     */
    method HandleVoteTestMode(candidateId: int) returns (result: TestVote)
      requires Valid()
      modifies currentCandidates
      ensures Valid()
      ensures !isTestMode ==> result == NotTestMode
      ensures isTestMode && !(0 <= candidateId < |currentCandidates|) ==> result == NoSuchCandidate
      ensures isTestMode && 0 <= candidateId < |currentCandidates| ==> result == SimulatedLocally
      ensures result == SimulatedLocally ==>
        currentCandidates[candidateId].voteCount == old(currentCandidates[candidateId].voteCount) + 1
      ensures forall j :: 0 <= j < |currentCandidates| && (result != SimulatedLocally || j != candidateId) ==>
        currentCandidates[j].voteCount == old(currentCandidates[j].voteCount)
    {
      if !isTestMode {
        return NotTestMode;
      }
      if !(0 <= candidateId < |currentCandidates|) {
        return NoSuchCandidate;
      }
      var c := currentCandidates[candidateId];
      c.voteCount := c.voteCount + 1;
      result := SimulatedLocally;
    }
  }
}
