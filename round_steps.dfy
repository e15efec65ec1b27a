/**
 * The loops of a block-production round, on values: broadcasting one call
 * to every backend, building the evidence, collecting the non-proposers'
 * verdicts, the votes and the vote-extension checks. Each is proved against
 * the functions of the Round module.
 */
module RoundSteps {
  import opened Wrappers
  import opened Chain
  import opened Misbehaviour
  import opened Dispatch
  import opened Addresses
  import opened Round

  /**
   * The response a broadcast returns: the first one, and when responses
   * must be equal, only if every response equals the first. Without any
   * response the source fails indexing the first.
   */
  method SelectResponse<R(==)>(responses: seq<R>, errorOnUnequal: bool) returns (r: Result<R, DispatchError>)
    ensures |responses| == 0 ==> r == Failure(NoResponses)
    ensures |responses| > 0 ==>
      (r.Success? <==> !errorOnUnequal || forall i :: 0 <= i < |responses| ==> responses[i] == responses[0])
    ensures r.Success? ==> r.value == responses[0]
    ensures r.Failure? && |responses| > 0 ==>
      && r.error.NotAllEqual?
      && 0 < r.error.index < |responses|
      && responses[r.error.index] != responses[0]
      && forall j :: 0 <= j < r.error.index ==> responses[j] == responses[0]
  {
    if errorOnUnequal {
      var i := 1;
      while i < |responses|
        invariant 1 <= i
        invariant forall j :: 0 <= j < i && j < |responses| ==> responses[j] == responses[0]
      {
        if responses[i] != responses[0] {
          return Failure(NotAllEqual(i));
        }
        i := i + 1;
      }
    }
    if |responses| == 0 {
      return Failure(NoResponses);
    }
    return Success(responses[0]);
  }

  /**
   * Sends one call to every backend, reachable or not, stops at the first
   * failure, and returns the selected response.
   */
  method Broadcast<R(==)>(cs: seq<CounterpartyClient>, errorOnUnequal: bool, call: CounterpartyClient -> Result<R, string>)
    returns (r: Result<R, DispatchError>)
    ensures r.Success? <==>
      && |cs| > 0
      && (forall i :: 0 <= i < |cs| ==> call(cs[i]).Success?)
      && (errorOnUnequal ==> forall i :: 0 <= i < |cs| ==> call(cs[i]).value == call(cs[0]).value)
    ensures r.Success? ==> r.value == call(cs[0]).value
    ensures (exists i :: 0 <= i < |cs| && call(cs[i]).Failure?) ==> r.Failure? && r.error.CallFailed?
    ensures r.Failure? && r.error.CallFailed? ==>
      exists k :: 0 <= k < |cs|
                  && (forall j :: 0 <= j < k ==> call(cs[j]).Success?)
                  && call(cs[k]).Failure?
                  && r.error == CallFailed(cs[k].networkAddress, call(cs[k]).error)
  {
    var responses: seq<R> := [];
    var i := 0;
    while i < |cs|
      invariant 0 <= i <= |cs| && |responses| == i
      invariant forall j :: 0 <= j < i ==> call(cs[j]).Success? && responses[j] == call(cs[j]).value
    {
      var response := call(cs[i]);
      if response.Failure? {
        return Failure(CallFailed(cs[i].networkAddress, response.error));
      }
      responses := responses + [response.value];
      i := i + 1;
    }
    r := SelectResponse(responses, errorOnUnequal);
  }

  /**
   * The evidence for every misbehaving validator, in order, against the
   * state `s` and the last block and commit; the first failure stops the
   * round.
   */
  method ConstructEvidences(
    misbehaving: seq<(Validator, MisbehaviourType)>, s: State, lastBlock: Block, lastCommit: Commit,
    voteTime: int, env: Collaborators, lib: Library)
    returns (r: Result<seq<Evidence>, RoundError>)
    ensures var all := MapAll(misbehaving, EvidenceMaker(s, lastBlock, lastCommit, voteTime, env, lib));
      && (r.Success? <==> all.Success?)
      && (r.Success? ==> r.value == all.value)
      && (r.Failure? ==> r.error == EvidenceFailed(all.error))
  {
    ghost var f := EvidenceMaker(s, lastBlock, lastCommit, voteTime, env, lib);
    var evidences: seq<Evidence> := [];
    var i := 0;
    while i < |misbehaving|
      invariant 0 <= i <= |misbehaving|
      invariant MapAll(misbehaving[..i], f) == Success(evidences)
    {
      var (v, kind) := misbehaving[i];
      var evidence := EvidenceFor(v, kind, s, lastBlock, lastCommit, voteTime, env, lib);
      assert misbehaving[..i + 1][..i] == misbehaving[..i];
      assert f(misbehaving[i]) == evidence;
      if evidence.Failure? {
        MapAllPrefixFails(misbehaving, i + 1, f);
        return Failure(EvidenceFailed(evidence.error));
      }
      evidences := evidences + [evidence.value];
      i := i + 1;
    }
    assert misbehaving[..i] == misbehaving;
    return Success(evidences);
  }

  /** The backends of the validators other than the proposer; a validator without a backend stops the round. */
  method NonProposers(vals: seq<Validator>, cs: seq<CounterpartyClient>, proposer: string)
    returns (r: Result<seq<CounterpartyClient>, RoundError>)
    ensures r.Success? <==> forall i :: 0 <= i < |vals| ==> ClientOf(cs, Hex(vals[i].address)).Some?
    ensures r.Success? ==> r.value == NonProposerClients(vals, cs, proposer)
    ensures r.Failure? ==>
      exists i :: 0 <= i < |vals| && ClientOf(cs, Hex(vals[i].address)).None? && r.error == ClientNotFound(Hex(vals[i].address))
  {
    var nonProposers: seq<CounterpartyClient> := [];
    var i := 0;
    while i < |vals|
      invariant 0 <= i <= |vals|
      invariant forall j :: 0 <= j < i ==> ClientOf(cs, Hex(vals[j].address)).Some?
      invariant nonProposers == NonProposerClients(vals[..i], cs, proposer)
    {
      var address := Hex(vals[i].address);
      var client := ClientOf(cs, address);
      if client.None? {
        return Failure(ClientNotFound(address));
      }
      NonProposerClientsAppend(vals, i, cs, proposer);
      if client.value.validatorAddress != proposer {
        nonProposers := nonProposers + [client.value];
      }
      i := i + 1;
    }
    assert vals[..i] == vals;
    return Success(nonProposers);
  }

  /** Every non-proposer's backend accepted the proposal. */
  lemma AcceptedByAll(
    vals: seq<Validator>, cs: seq<CounterpartyClient>, proposer: string, nonProposers: seq<CounterpartyClient>,
    b: Block, env: Collaborators)
    requires nonProposers == NonProposerClients(vals, cs, proposer)
    requires forall i :: 0 <= i < |nonProposers| ==> env.processProposal(nonProposers[i], b) == Success(Accept)
    ensures forall i :: 0 <= i < |vals| && Hex(vals[i].address) != proposer && ClientOf(cs, Hex(vals[i].address)).Some? ==>
      env.processProposal(ClientOf(cs, Hex(vals[i].address)).value, b) == Success(Accept)
  {
    forall i | 0 <= i < |vals| && Hex(vals[i].address) != proposer && ClientOf(cs, Hex(vals[i].address)).Some?
      ensures env.processProposal(ClientOf(cs, Hex(vals[i].address)).value, b) == Success(Accept)
    {
      NonProposerClientsComplete(vals, cs, proposer);
      var c := ClientOf(cs, Hex(vals[i].address)).value;
      assert c in nonProposers;
      var k :| 0 <= k < |nonProposers| && nonProposers[k] == c;
    }
  }

  /** Asks every non-proposer to process the proposal; the first one that does not accept it stops the round. */
  method ProcessProposals(nonProposers: seq<CounterpartyClient>, block: Block, env: Collaborators) returns (r: Outcome<RoundError>)
    ensures r.Pass? <==> forall i :: 0 <= i < |nonProposers| ==> env.processProposal(nonProposers[i], block) == Success(Accept)
    ensures r.Fail? ==>
      exists i :: 0 <= i < |nonProposers|
                  && r == ProposalVerdict(nonProposers[i], env.processProposal(nonProposers[i], block))
                  && forall j :: 0 <= j < i ==> env.processProposal(nonProposers[j], block) == Success(Accept)
    ensures r.Fail? ==> r.error.ProcessProposalFailed? || r.error.ProposalRejected? || r.error.Halt?
  {
    var i := 0;
    while i < |nonProposers|
      invariant 0 <= i <= |nonProposers|
      invariant forall j :: 0 <= j < i ==> env.processProposal(nonProposers[j], block) == Success(Accept)
    {
      var client := nonProposers[i];
      var answer := env.processProposal(client, block);
      if answer.Failure? {
        return Fail(ProcessProposalFailed(client.validatorAddress, answer.error));
      }
      if answer.value == Unknown {
        return Fail(Halt("ProcessProposal answered with an unknown status"));
      }
      if answer.value != Accept {
        return Fail(ProposalRejected(client.validatorAddress));
      }
      i := i + 1;
    }
    return Pass;
  }

  /**
   * One vote slot per validator of the state's current set, in the set's
   * order: None for a validator whose signing status is off, its signed
   * precommit otherwise.
   */
  method CollectVotes(
    s: State, signing: map<string, bool>, cs: seq<CounterpartyClient>, block: Block, env: Collaborators, lib: Library)
    returns (r: Result<seq<Option<Vote>>, RoundError>)
    ensures r == MapAll(s.validators.validators, BallotMaker(s, signing, cs, block, env, lib))
    ensures r.Failure? ==> r.error.SigningStatusNotFound? || r.error.ClientNotFound? || r.error.VoteFailed?
  {
    var vals := s.validators.validators;
    ghost var f := BallotMaker(s, signing, cs, block, env, lib);
    var votes: seq<Option<Vote>> := [];
    var i := 0;
    while i < |vals|
      invariant 0 <= i <= |vals|
      invariant MapAll(vals[..i], f) == Success(votes)
    {
      var address := Hex(vals[i].address);
      assert vals[..i + 1][..i] == vals[..i];
      assert f(vals[i]) == Ballot(s, signing, cs, block, env, lib, vals[i]);
      if address !in signing {
        MapAllPrefixFails(vals, i + 1, f);
        return Failure(SigningStatusNotFound(address));
      }
      if signing[address] {
        var client := ClientOf(cs, address);
        if client.None? {
          MapAllPrefixFails(vals, i + 1, f);
          return Failure(ClientNotFound(address));
        }
        var vote := ExtendAndSignVote(s, client.value, block, env, lib);
        if vote.Failure? {
          MapAllPrefixFails(vals, i + 1, f);
          return Failure(VoteFailed(address, vote.error));
        }
        votes := votes + [Some(vote.value)];
      } else {
        votes := votes + [None];
      }
      i := i + 1;
    }
    assert vals[..i] == vals;
    return Success(votes);
  }

  /** Every validator has a backend. */
  predicate AllHaveClients(vals: seq<Validator>, cs: seq<CounterpartyClient>)
  {
    forall i :: 0 <= i < |vals| ==> ClientOf(cs, Hex(vals[i].address)).Some?
  }

  /** The validator has a backend, and it accepts every vote extension in `votes` but its own. */
  predicate VerifiesExtensions(cs: seq<CounterpartyClient>, v: Validator, votes: seq<Option<Vote>>, block: Block, env: Collaborators)
  {
    ClientOf(cs, Hex(v.address)).Some? && AcceptsAllExtensions(ClientOf(cs, Hex(v.address)).value, votes, block, env)
  }

  /** Whether every validator verifies the extensions does not depend on the order the validators are visited in. */
  lemma VerifiesExtensionsInAnyOrder(
    vals: seq<Validator>, sorted: seq<Validator>, cs: seq<CounterpartyClient>, votes: seq<Option<Vote>>, block: Block, env: Collaborators)
    requires multiset(sorted) == multiset(vals)
    ensures (forall k :: 0 <= k < |sorted| ==> VerifiesExtensions(cs, sorted[k], votes, block, env))
        <==> (forall i :: 0 <= i < |vals| ==> VerifiesExtensions(cs, vals[i], votes, block, env))
  {
    if forall k :: 0 <= k < |sorted| ==> VerifiesExtensions(cs, sorted[k], votes, block, env) {
      forall i | 0 <= i < |vals| ensures VerifiesExtensions(cs, vals[i], votes, block, env) {
        assert vals[i] in multiset(sorted);
      }
    }
    if forall i :: 0 <= i < |vals| ==> VerifiesExtensions(cs, vals[i], votes, block, env) {
      forall k | 0 <= k < |sorted| ensures VerifiesExtensions(cs, sorted[k], votes, block, env) {
        assert sorted[k] in multiset(vals);
      }
    }
  }

  /** One backend's turn: it verifies the extension of every vote but its own; a refusal ends the process. */
  method VerifyExtensionsBy(c: CounterpartyClient, votes: seq<Option<Vote>>, block: Block, env: Collaborators)
    returns (r: Outcome<RoundError>)
    ensures r.Pass? <==> AcceptsAllExtensions(c, votes, block, env)
    ensures r.Fail? ==> r.error.Halt?
  {
    var j := 0;
    while j < |votes|
      invariant 0 <= j <= |votes|
      invariant forall k :: 0 <= k < j ==> ExtensionAccepted(c, votes[k], block, env)
    {
      if votes[j].Some? && Hex(votes[j].value.validatorAddress) != c.validatorAddress {
        var answer := env.verifyVoteExtension(c, block, votes[j].value);
        if answer.Failure? {
          return Fail(Halt("VerifyVoteExtension failed"));
        }
        if answer.value == Unknown {
          return Fail(Halt("VerifyVoteExtension answered with an unknown status"));
        }
        if answer.value != Accept {
          return Fail(Halt("VerifyVoteExtension rejected an extension"));
        }
      }
      j := j + 1;
    }
    return Pass;
  }

  /** The backends take turns in the order given; the first refusal, or a validator without a backend, ends the checks. */
  method VerifyExtensionsInOrder(
    vals: seq<Validator>, cs: seq<CounterpartyClient>, votes: seq<Option<Vote>>, block: Block, env: Collaborators)
    returns (r: Outcome<RoundError>)
    ensures r.Pass? <==> forall i :: 0 <= i < |vals| ==> VerifiesExtensions(cs, vals[i], votes, block, env)
    ensures r.Fail? ==> r.error.ClientNotFound? || r.error.Halt?
  {
    var i := 0;
    while i < |vals|
      invariant 0 <= i <= |vals|
      invariant forall k :: 0 <= k < i ==> VerifiesExtensions(cs, vals[k], votes, block, env)
    {
      var address := Hex(vals[i].address);
      var client := ClientOf(cs, address);
      if client.None? {
        return Fail(ClientNotFound(address));
      }
      var verified := VerifyExtensionsBy(client.value, votes, block, env);
      if verified.Fail? {
        return verified;
      }
      i := i + 1;
    }
    return Pass;
  }

  /**
   * Every validator's backend verifies the extension of every vote but its
   * own; a refusal ends the process. The backends take turns in the order
   * of their network addresses, on a sorted copy of the validator list;
   * sorting two or more validators when one has no backend ends the
   * process too.
   */
  method VerifyVoteExtensions(
    vals: seq<Validator>, cs: seq<CounterpartyClient>, votes: seq<Option<Vote>>, block: Block, env: Collaborators)
    returns (r: Outcome<RoundError>)
    ensures r.Pass? <==> forall i :: 0 <= i < |vals| ==> VerifiesExtensions(cs, vals[i], votes, block, env)
    ensures r.Fail? ==> r.error.ClientNotFound? || r.error.Halt?
  {
    if |vals| >= 2 && !AllHaveClients(vals, cs) {
      return Fail(Halt("Did not find client for validator"));
    }
    var sorted := SortByNetworkAddress(vals, cs);
    VerifiesExtensionsInAnyOrder(vals, sorted, cs, votes, block, env);
    r := VerifyExtensionsInOrder(sorted, cs, votes, block, env);
  }

  /** The address of the proposer, and the empty address for a missing proposer. */
  function AddressOf(proposer: Option<Validator>): Address
  {
    if proposer.Some? then proposer.value.address else []
  }

  /** What the first stage of a round yields: the CheckTx response, the accepted proposal and the votes on it. */
  datatype Proposed = Proposed(checkTx: Option<CheckTxResponse>, block: Block, votes: seq<Option<Vote>>)

  /** Round errors raised before the new commit is recorded: the engine is left exactly as it was. */
  predicate AbortsBeforeCommit(e: RoundError)
  {
    !(|| e.CommitNotTrusted? || e.InvalidLightBlock? || e.FinalizeFailed?
      || e.StoreFailed? || e.InvalidValidatorUpdate? || e.UndecodableValidatorUpdates? || e.StateUpdateFailed?
      || e.CommitCallFailed?)
  }

  /** Round errors raised before the new block is recorded: the checks of the new commit and FinalizeBlock, and all earlier ones. */
  predicate AbortsBeforeBlock(e: RoundError)
  {
    AbortsBeforeCommit(e) || e.CommitNotTrusted? || e.InvalidLightBlock? || e.FinalizeFailed?
  }

  /**
   * `block` is the proposer's proposal on state `s`, carrying the evidence
   * for every misbehaving validator, and `checkTx`, present exactly when a
   * transaction was submitted, is the first backend's CheckTx response.
   */
  predicate IsProposedBlock(
    checkTx: Option<CheckTxResponse>, block: Block, tx: Option<Tx>, proposer: Option<Validator>,
    misbehaving: seq<(Validator, MisbehaviourType)>, s: State, cs: seq<CounterpartyClient>, lastBlock: Block,
    lastCommit: Commit, voteTime: int, env: Collaborators, lib: Library)
  {
    && ClientOf(cs, Hex(AddressOf(proposer))).Some?
    && Success(block) == CreateProposalBlock(s, ClientOf(cs, Hex(AddressOf(proposer))).value,
         s.lastBlockHeight + 1, CandidateTxs(tx), block.evidence, lastCommit, env, lib)
    && Success(block.evidence) == MapAll(misbehaving, EvidenceMaker(s, lastBlock, lastCommit, voteTime, env, lib))
    && (tx.Some? <==> checkTx.Some?)
    && (tx.Some? ==> |cs| > 0 && env.checkTx(cs[0], tx.value) == Success(checkTx.value))
  }

  /**
   * Every validator of state `s` other than the proposer accepted `block`,
   * `votes` is one slot per current validator, and every validator's
   * backend accepted every extension in it.
   */
  predicate IsAcceptedAndVoted(
    votes: seq<Option<Vote>>, block: Block, proposer: Option<Validator>,
    s: State, signing: map<string, bool>, cs: seq<CounterpartyClient>, env: Collaborators, lib: Library)
  {
    && (forall i :: 0 <= i < |s.validators.validators| ==>
          && VerifiesExtensions(cs, s.validators.validators[i], votes, block, env)
          && (Hex(s.validators.validators[i].address) != Hex(AddressOf(proposer)) ==>
                env.processProposal(ClientOf(cs, Hex(s.validators.validators[i].address)).value, block) == Success(Accept)))
    && Success(votes) == MapAll(s.validators.validators, BallotMaker(s, signing, cs, block, env, lib))
  }

  /** `p` is what the first stage of a round on state `s` yields: the proposal, and the verdicts and votes on it. */
  predicate IsProposal(
    p: Proposed, tx: Option<Tx>, proposer: Option<Validator>, misbehaving: seq<(Validator, MisbehaviourType)>,
    s: State, signing: map<string, bool>, cs: seq<CounterpartyClient>, lastBlock: Block, lastCommit: Commit,
    voteTime: int, env: Collaborators, lib: Library)
  {
    && IsProposedBlock(p.checkTx, p.block, tx, proposer, misbehaving, s, cs, lastBlock, lastCommit, voteTime, env, lib)
    && IsAcceptedAndVoted(p.votes, p.block, proposer, s, signing, cs, env, lib)
  }

  /** A proposal's block names the proposer, sits at the next height and carries the evidence list. */
  lemma ProposalNamesProposer(
    p: Proposed, tx: Option<Tx>, proposer: Option<Validator>, misbehaving: seq<(Validator, MisbehaviourType)>,
    s: State, signing: map<string, bool>, cs: seq<CounterpartyClient>, lastBlock: Block, lastCommit: Commit,
    voteTime: int, env: Collaborators, lib: Library)
    requires IsProposal(p, tx, proposer, misbehaving, s, signing, cs, lastBlock, lastCommit, voteTime, env, lib)
    ensures p.block.header.proposerAddress == AddressOf(proposer)
    ensures p.block.header.height == s.lastBlockHeight + 1
    ensures Success(p.block.evidence) == MapAll(misbehaving, EvidenceMaker(s, lastBlock, lastCommit, voteTime, env, lib))
  {
    DecodeHexInvertsHex(AddressOf(proposer));
  }

  /**
   * CheckTx for the submitted transaction, evidence for the misbehaving
   * validators and the proposer's proposal.
   */
  method ProposeBlock(
    tx: Option<Tx>, proposer: Option<Validator>, misbehaving: seq<(Validator, MisbehaviourType)>,
    s: State, cs: seq<CounterpartyClient>, lastBlock: Block, lastCommit: Commit,
    voteTime: int, errorOnUnequal: bool, env: Collaborators, lib: Library)
    returns (r: Result<(Option<CheckTxResponse>, Block), RoundError>)
    ensures r.Success? ==>
      IsProposedBlock(r.value.0, r.value.1, tx, proposer, misbehaving, s, cs, lastBlock, lastCommit, voteTime, env, lib)
    ensures r.Failure? ==> AbortsBeforeCommit(r.error)
  {
    var resCheckTx: Option<CheckTxResponse> := None;
    if tx.Some? {
      var t := tx.value;
      var checked := Broadcast(cs, errorOnUnequal, c => env.checkTx(c, t));
      if checked.Failure? {
        return Failure(CheckTxFailed(checked.error));
      }
      resCheckTx := Some(checked.value);
    }
    var proposerAddress := Hex(AddressOf(proposer));
    var evidences := ConstructEvidences(misbehaving, s, lastBlock, lastCommit, voteTime, env, lib);
    if evidences.Failure? {
      return Failure(evidences.error);
    }
    var proposerApp := ClientOf(cs, proposerAddress);
    if proposerApp.None? {
      return Failure(ProposerNotFound(proposerAddress));
    }
    var block := CreateProposalBlock(
      s, proposerApp.value, s.lastBlockHeight + 1, CandidateTxs(tx), evidences.value, lastCommit, env, lib);
    if block.Failure? {
      return Failure(block.error);
    }
    return Success((resCheckTx, block.value));
  }

  /**
   * Every non-proposer's verdict on the proposal, every validator's vote
   * and the vote-extension checks.
   */
  method VoteOnProposal(
    block: Block, proposer: Option<Validator>, s: State, signing: map<string, bool>, cs: seq<CounterpartyClient>,
    env: Collaborators, lib: Library)
    returns (r: Result<seq<Option<Vote>>, RoundError>)
    ensures r.Success? ==> IsAcceptedAndVoted(r.value, block, proposer, s, signing, cs, env, lib)
    ensures r.Failure? ==> AbortsBeforeCommit(r.error)
  {
    var vals := s.validators.validators;
    var proposerAddress := Hex(AddressOf(proposer));
    var nonProposers := NonProposers(vals, cs, proposerAddress);
    if nonProposers.Failure? {
      return Failure(nonProposers.error);
    }
    var accepted := ProcessProposals(nonProposers.value, block, env);
    if accepted.Fail? {
      return Failure(accepted.error);
    }
    AcceptedByAll(vals, cs, proposerAddress, nonProposers.value, block, env);
    var votes := CollectVotes(s, signing, cs, block, env, lib);
    if votes.Failure? {
      return Failure(votes.error);
    }
    var extensionsVerified := VerifyVoteExtensions(vals, cs, votes.value, block, env);
    if extensionsVerified.Fail? {
      return Failure(extensionsVerified.error);
    }
    return Success(votes.value);
  }

  /**
   * The first stage of a round on state `s`, which changes nothing: the
   * proposal, then the verdicts and votes on it.
   */
  method ProposeAndVote(
    tx: Option<Tx>, proposer: Option<Validator>, misbehaving: seq<(Validator, MisbehaviourType)>,
    s: State, signing: map<string, bool>, cs: seq<CounterpartyClient>, lastBlock: Block, lastCommit: Commit,
    voteTime: int, errorOnUnequal: bool, env: Collaborators, lib: Library)
    returns (r: Result<Proposed, RoundError>)
    ensures r.Success? ==> IsProposal(r.value, tx, proposer, misbehaving, s, signing, cs, lastBlock, lastCommit, voteTime, env, lib)
    ensures r.Failure? ==> AbortsBeforeCommit(r.error)
  {
    var proposed := ProposeBlock(tx, proposer, misbehaving, s, cs, lastBlock, lastCommit, voteTime, errorOnUnequal, env, lib);
    if proposed.Failure? {
      return Failure(proposed.error);
    }
    var (checkTx, block) := proposed.value;
    var votes := VoteOnProposal(block, proposer, s, signing, cs, env, lib);
    if votes.Failure? {
      return Failure(votes.error);
    }
    return Success(Proposed(checkTx, block, votes.value));
  }
}
