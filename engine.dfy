/**
 * The block-production engine: the one object that owns the chain state,
 * the backends and their liveness, the signing-status map and the time
 * offset, and runs one block-production round at a time.
 */
module Engine {
  import opened Wrappers
  import opened Chain
  import opened StateTransition
  import opened Misbehaviour
  import opened Dispatch
  import opened Addresses
  import opened Round
  import opened RoundSteps

  /** Go's addition of two int64 values, which wraps around. */
  function GoAddInt64(a: int, b: int): (r: int)
    requires InInt64(a) && InInt64(b)
    ensures InInt64(r)
    ensures InInt64(a + b) ==> r == a + b
    ensures a + b > MaxInt64 ==> r == a + b - 0x1_0000_0000_0000_0000
  {
    var s := a + b;
    if s > MaxInt64 then s - 0x1_0000_0000_0000_0000
    else if s < MinInt64 then s + 0x1_0000_0000_0000_0000
    else s
  }

  /** The time offset after an increment as the source computes it: a negative increment is refused, the sum wraps around. */
  function IncrementedOffsetAsWritten(offset: int, additional: int): (r: Result<int, string>)
    requires InInt64(offset) && InInt64(additional)
    ensures r.Failure? <==> additional < 0
    ensures r.Success? ==> r.value == GoAddInt64(offset, additional)
  {
    if additional < 0 then Failure("time offset cannot be decremented")
    else Success(GoAddInt64(offset, additional))
  }

  /** As written, a non-negative increment can make the offset smaller: the largest offset plus one wraps to the smallest. */
  lemma AsWrittenOffsetCanDecrease()
    ensures IncrementedOffsetAsWritten(MaxInt64, 1) == Success(MinInt64)
    ensures IncrementedOffsetAsWritten(MaxInt64, 1).value < MaxInt64
  {
  }

  /**
   * The time offset after an increment: a negative increment, or one that
   * would leave the int64 range, is refused; otherwise the offset grows by
   * exactly the increment.
   */
  function IncrementedOffset(offset: int, additional: int): (r: Result<int, string>)
    requires 0 <= offset <= MaxInt64 && InInt64(additional)
    ensures r.Failure? <==> additional < 0 || offset + additional > MaxInt64
    ensures r.Success? ==> offset <= r.value <= MaxInt64 && r.value == offset + additional
  {
    if additional < 0 then Failure("time offset cannot be decremented")
    else if additional > MaxInt64 - offset then Failure("time offset would overflow")
    else Success(GoAddInt64(offset, additional))
  }

  /**
   * The state after a finalized block: the state transition with the
   * validator updates decoded from the application's response, or None
   * when they cannot be decoded or the transition is refused.
   */
  function StateAfter(s: State, block: Block, res: FinalizeResponse, lib: Library): (r: Option<State>)
  {
    match lib.validatorsFromUpdates(res.validatorUpdates)
    case Failure(_) => None
    case Success(updates) =>
      match UpdateState(s, lib.blockIdOf(block), block.header, res, updates, lib)
      case Failure(_) => None
      case Success(next) => Some(next)
  }

  datatype RoundResult = RoundResult(checkTx: Option<CheckTxResponse>, finalize: FinalizeResponse, commit: CommitResponse)

  class AbciClient {
    var clients: seq<CounterpartyClient>
    var curState: State
    var lastBlock: Block
    var lastCommit: Commit
    /** The hex text of a validator's address to whether that validator signs its votes. */
    var signingStatus: map<string, bool>
    /** Added to every time the engine reads from the clock. */
    var timeOffset: int
    /** Whether all backends must give equal responses to a broadcast. */
    const errorOnUnequalResponses: bool
    const lib: Library
    /** The address texts of the validators whose signing keys the engine holds. */
    ghost const signers: set<string>

    ghost predicate Valid()
      reads this`signingStatus, this`timeOffset
    {
      signingStatus.Keys == signers && 0 <= timeOffset <= MaxInt64
    }

    /** A new engine; every validator whose key it holds starts out signing. */
    constructor(
      clients: seq<CounterpartyClient>, curState: State, lastBlock: Block, lastCommit: Commit,
      privValidators: set<string>, errorOnUnequalResponses: bool, lib: Library)
      ensures Valid()
      ensures this.clients == clients && this.curState == curState
      ensures this.lastBlock == lastBlock && this.lastCommit == lastCommit
      ensures this.errorOnUnequalResponses == errorOnUnequalResponses && this.lib == lib
      ensures signingStatus.Keys == privValidators
      ensures forall a :: a in signingStatus ==> signingStatus[a]
      ensures timeOffset == 0
    {
      var status: map<string, bool> := map[];
      var remaining := privValidators;
      while remaining != {}
        invariant remaining <= privValidators
        invariant status.Keys == privValidators - remaining
        invariant forall a :: a in status ==> status[a]
        decreases remaining
      {
        var addr :| addr in remaining;
        status := status[addr := true];
        remaining := remaining - {addr};
      }
      this.clients := clients;
      this.curState := curState;
      this.lastBlock := lastBlock;
      this.lastCommit := lastCommit;
      this.signingStatus := status;
      this.timeOffset := 0;
      this.errorOnUnequalResponses := errorOnUnequalResponses;
      this.lib := lib;
      this.signers := privValidators;
    }

    function GetTimeOffset(): int
      reads this
    {
      timeOffset
    }

    /** Adds a non-negative duration to the time offset, which therefore never decreases. */
    method IncrementTimeOffset(additionalOffset: int) returns (r: Outcome<string>)
      requires Valid() && InInt64(additionalOffset)
      modifies this`timeOffset
      ensures Valid()
      ensures r.Pass? <==> IncrementedOffset(old(timeOffset), additionalOffset).Success?
      ensures additionalOffset < 0 ==> r.Fail?
      ensures timeOffset == if r.Pass? then old(timeOffset) + additionalOffset else old(timeOffset)
      ensures old(timeOffset) <= timeOffset
    {
      var next := IncrementedOffset(timeOffset, additionalOffset);
      if next.Failure? {
        return Fail(next.error);
      }
      timeOffset := next.value;
      return Pass;
    }

    /** The signing status of a validator, and an error for an address that is not a validator's. */
    function GetSigningStatus(address: string): (r: Result<bool, RoundError>)
      reads this
      ensures r.Success? <==> address in signingStatus
      ensures r.Success? ==> r.value == signingStatus[address]
      ensures r.Failure? ==> r.error == SigningStatusNotFound(address)
    {
      if address in signingStatus then Success(signingStatus[address]) else Failure(SigningStatusNotFound(address))
    }

    /** Sets one validator's signing status; an unknown address is refused and nothing changes. */
    method SetSigningStatus(address: string, status: bool) returns (r: Outcome<RoundError>)
      requires Valid()
      modifies this`signingStatus
      ensures Valid()
      ensures r.Pass? <==> address in old(signingStatus)
      ensures signingStatus == if r.Pass? then old(signingStatus)[address := status] else old(signingStatus)
      ensures r.Pass? ==> GetSigningStatus(address) == Success(status)
      ensures forall b :: b != address ==> GetSigningStatus(b) == old(GetSigningStatus(b))
    {
      if address !in signingStatus {
        return Fail(SigningStatusNotFound(address));
      }
      signingStatus := signingStatus[address := status];
      return Pass;
    }

    /**
     * The first current validator whose address has the given hex text: the
     * validator with the address the text decodes to.
     */
    method GetValidatorFromAddress(address: string) returns (r: Result<Validator, RoundError>)
      ensures r.Success? <==> NamesValidator(curState.validators, address)
      ensures r.Success? ==>
        && Hex(r.value.address) == address
        && DecodeHex(address) == Some(r.value.address)
        && GetByAddress(curState.validators, r.value.address).1 == Some(r.value)
      ensures r.Failure? ==> r.error == ValidatorNotFound(address)
    {
      var vals := curState.validators.validators;
      var i := 0;
      while i < |vals|
        invariant 0 <= i <= |vals|
        invariant forall j :: 0 <= j < i ==> Hex(vals[j].address) != address
      {
        if Hex(vals[i].address) == address {
          DecodeHexInvertsHex(vals[i].address);
          assert forall j :: 0 <= j < i ==> vals[j].address != vals[i].address;
          return Success(vals[i]);
        }
        i := i + 1;
      }
      return Failure(ValidatorNotFound(address));
    }

    /** The first backend that represents the validator with the given address. */
    method GetCounterpartyFromAddress(address: string) returns (r: Result<CounterpartyClient, RoundError>)
      ensures r.Success? <==> ClientOf(clients, address).Some?
      ensures r.Success? ==> r.value == ClientOf(clients, address).value
      ensures r.Failure? ==> r.error == ClientNotFound(address)
    {
      var i := 0;
      while i < |clients|
        invariant 0 <= i <= |clients|
        invariant ClientOf(clients, address) == ClientOf(clients[i..], address)
      {
        if clients[i].validatorAddress == address {
          return Success(clients[i]);
        }
        assert clients[i..][1..] == clients[i + 1..];
        i := i + 1;
      }
      return Failure(ClientNotFound(address));
    }

    /**
     * Calls `f` on every reachable backend and collects the results in
     * backend order. A backend whose call fails is marked unreachable, in
     * place; unreachable backends are skipped (`called` lists the positions
     * of the backends called). It never reports an error.
     */
    method CallClientsWithTimeout<R>(f: CounterpartyClient -> Result<R, CallError>)
      returns (r: Result<seq<R>, CallError>, ghost called: seq<nat>)
      modifies this`clients
      ensures r.Success? && r.value == Successes(old(clients), f)
      ensures clients == MarkFailures(old(clients), f)
      ensures forall k :: 0 <= k < |called| ==> called[k] < |old(clients)| && old(clients)[called[k]].isConnected
      ensures forall i :: 0 <= i < |old(clients)| && old(clients)[i].isConnected ==> i in called
    {
      var cs := clients;
      var updated := cs;
      var results: seq<R> := [];
      called := [];
      var i := 0;
      while i < |cs|
        invariant 0 <= i <= |cs| && |updated| == |cs|
        invariant forall j :: 0 <= j < i ==> updated[j] == AfterCall(cs[j], f)
        invariant forall j :: i <= j < |cs| ==> updated[j] == cs[j]
        invariant results == Successes(cs[..i], f)
        invariant forall k :: 0 <= k < |called| ==> called[k] < i && cs[called[k]].isConnected
        invariant forall j :: 0 <= j < i && cs[j].isConnected ==> j in called
      {
        var client := cs[i];
        SuccessesStep(cs, i, f);
        if client.isConnected {
          called := called + [i];
          var result := f(client);
          if result.Failure? {
            updated := updated[i := client.(isConnected := false)];
          } else {
            results := results + [result.value];
          }
        }
        i := i + 1;
      }
      assert cs[..i] == cs;
      clients := updated;
      return Success(results), called;
    }

    /**
     * Advances the chain state with a finalized block: the validator
     * updates must be admitted and decodable, then the state transition
     * function gives the new state. On an error the state is unchanged.
     */
    method UpdateStateFromBlock(blockId: BlockId, block: Block, res: FinalizeResponse) returns (r: Outcome<RoundError>)
      modifies this`curState
      ensures r.Pass? <==>
        && (forall i :: 0 <= i < |res.validatorUpdates| ==> CheckUpdate(res.validatorUpdates[i], old(curState).consensusParams).Pass?)
        && lib.validatorsFromUpdates(res.validatorUpdates).Success?
        && UpdateState(old(curState), blockId, block.header, res, lib.validatorsFromUpdates(res.validatorUpdates).value, lib).Success?
      ensures r.Pass? ==>
        curState == UpdateState(old(curState), blockId, block.header, res, lib.validatorsFromUpdates(res.validatorUpdates).value, lib).value
      ensures r.Fail? ==> curState == old(curState)
      ensures r.Fail? ==> r.error.InvalidValidatorUpdate? || r.error.UndecodableValidatorUpdates? || r.error.StateUpdateFailed?
    {
      var checked := ValidateValidatorUpdates(res.validatorUpdates, curState.consensusParams);
      if checked.Fail? {
        return Fail(InvalidValidatorUpdate(checked.error));
      }
      var validatorUpdates := lib.validatorsFromUpdates(res.validatorUpdates);
      if validatorUpdates.Failure? {
        return Fail(UndecodableValidatorUpdates(validatorUpdates.error));
      }
      var newState := UpdateState(curState, blockId, block.header, res, validatorUpdates.value, lib);
      if newState.Failure? {
        return Fail(StateUpdateFailed(newState.error));
      }
      curState := newState.value;
      return Pass;
    }

    /**
     * The second stage of a round: the commit made of the votes and its
     * sanity checks, FinalizeBlock, the stores, the state transition and
     * Commit. The new commit is recorded before its checks and the block
     * before the stores are updated, so an abort leaves them behind.
     */
    method CommitBlock(block: Block, votes: seq<Option<Vote>>, env: Collaborators)
      returns (r: Result<(FinalizeResponse, CommitResponse), RoundError>)
      modifies this`curState, this`lastBlock, this`lastCommit
      ensures r.Success? ==>
        && lastBlock == block
        && Success(lastCommit) == lib.makeExtendedCommit(old(curState), old(curState.lastBlockHeight) + 1, votes)
        && lib.verifyCommitLightTrusting(old(curState).validators, old(curState).chainId, lastCommit)
        && lib.lightBlockValid(LightBlock(SignedHeader(block.header, lastCommit), old(curState).validators),
                               old(curState).chainId)
        && |clients| > 0
        && env.finalizeBlock(clients[0], block) == Success(r.value.0)
        && env.commit(clients[0]) == Success(r.value.1)
      ensures r.Success? ==>
        && env.updateStores(old(curState.lastBlockHeight) + 1, block, lastCommit, old(curState), r.value.0) == Pass
        && StateAfter(old(curState), block, r.value.0, lib).Some?
        && curState == StateAfter(old(curState), block, r.value.0, lib).value.(appHash := r.value.0.appHash)
      // an abort: what each field holds, by the stage it aborts at
      ensures r.Failure? ==> r.error.CommitFailed? || !AbortsBeforeCommit(r.error)
      ensures r.Failure? && AbortsBeforeCommit(r.error) ==>
        curState == old(curState) && lastBlock == old(lastBlock) && lastCommit == old(lastCommit)
      ensures r.Failure? && !AbortsBeforeCommit(r.error) ==>
        Success(lastCommit) == lib.makeExtendedCommit(old(curState), old(curState.lastBlockHeight) + 1, votes)
      ensures r.Failure? ==> lastBlock == if AbortsBeforeBlock(r.error) then old(lastBlock) else block
      ensures r.Failure? && !r.error.CommitCallFailed? ==> curState == old(curState)
      ensures r.Failure? && r.error.CommitCallFailed? ==>
        && |clients| > 0
        && env.finalizeBlock(clients[0], block).Success?
        && StateAfter(old(curState), block, env.finalizeBlock(clients[0], block).value, lib).Some?
        && curState == StateAfter(old(curState), block, env.finalizeBlock(clients[0], block).value, lib).value
      ensures r.Failure? && r.error.CommitCallFailed? ==>
        curState.lastBlockHeight == block.header.height && curState.appHash == []
    {
      var newHeight := curState.lastBlockHeight + 1;
      var commit := lib.makeExtendedCommit(curState, newHeight, votes);
      if commit.Failure? {
        return Failure(CommitFailed(commit.error));
      }
      lastCommit := commit.value;
      if !lib.verifyCommitLightTrusting(curState.validators, curState.chainId, lastCommit) {
        return Failure(CommitNotTrusted);
      }
      if !lib.lightBlockValid(LightBlock(SignedHeader(block.header, lastCommit), curState.validators), curState.chainId) {
        return Failure(InvalidLightBlock);
      }
      var finalized := Broadcast(clients, errorOnUnequalResponses, c => env.finalizeBlock(c, block));
      if finalized.Failure? {
        return Failure(FinalizeFailed(finalized.error));
      }
      lastBlock := block;
      var stored := env.updateStores(newHeight, block, lastCommit, curState, finalized.value);
      if stored.Fail? {
        return Failure(StoreFailed(stored.error));
      }
      var updated := UpdateStateFromBlock(lib.blockIdOf(block), block, finalized.value);
      if updated.Fail? {
        return Failure(updated.error);
      }
      var committed := Broadcast(clients, errorOnUnequalResponses, env.commit);
      if committed.Failure? {
        return Failure(CommitCallFailed(committed.error));
      }
      curState := curState.(appHash := finalized.value.appHash);
      return Success((finalized.value, committed.value));
    }

    /**
     * One block-production round at the next height: the proposal and
     * voting stage, then the commit stage. The block time comes from the
     * library (`blockTime` goes unused).
     */
    method RunBlockWithTimeAndProposer(
      tx: Option<Tx>, blockTime: int, proposer: Option<Validator>,
      misbehaving: seq<(Validator, MisbehaviourType)>, now: int, env: Collaborators)
      returns (r: Result<RoundResult, RoundError>, ghost proposal: Proposed)
      modifies this`curState, this`lastBlock, this`lastCommit
      // the block, the votes and the CheckTx response: the first stage's, on the old state
      ensures r.Success? ==>
        && IsProposal(proposal, tx, proposer, misbehaving, old(curState), old(signingStatus), old(clients), old(lastBlock),
             old(lastCommit), now + old(timeOffset), env, lib)
        && lastBlock == proposal.block
        && r.value.checkTx == proposal.checkTx
        && lastBlock.header.height == old(curState.lastBlockHeight) + 1
        && lastBlock.header.proposerAddress == AddressOf(proposer)
        && Success(lastBlock.evidence)
           == MapAll(misbehaving, EvidenceMaker(old(curState), old(lastBlock), old(lastCommit), now + old(timeOffset), env, lib))
      // the commit: made of those votes, trusted
      ensures r.Success? ==>
        && Success(lastCommit) == lib.makeExtendedCommit(old(curState), old(curState.lastBlockHeight) + 1, proposal.votes)
        && lib.verifyCommitLightTrusting(old(curState).validators, old(curState).chainId, lastCommit)
      // the responses: those of the first backend
      ensures r.Success? ==>
        && |clients| > 0
        && env.finalizeBlock(clients[0], lastBlock) == Success(r.value.finalize)
        && env.commit(clients[0]) == Success(r.value.commit)
      // the new state: the state transition, stamped with the application's hash
      ensures r.Success? ==>
        && StateAfter(old(curState), lastBlock, r.value.finalize, lib).Some?
        && curState == StateAfter(old(curState), lastBlock, r.value.finalize, lib).value.(appHash := r.value.finalize.appHash)
      ensures r.Success? ==>
        && curState.lastBlockHeight == old(curState.lastBlockHeight) + 1
        && curState.validators == old(curState.nextValidators)
        && curState.lastValidators == old(curState.validators)
        && curState.appHash == r.value.finalize.appHash
      // the effects an aborted round leaves behind, by the stage it aborts at
      ensures r.Failure? && AbortsBeforeCommit(r.error) ==>
        curState == old(curState) && lastBlock == old(lastBlock) && lastCommit == old(lastCommit)
      ensures r.Failure? && !AbortsBeforeCommit(r.error) ==>
        && IsProposal(proposal, tx, proposer, misbehaving, old(curState), old(signingStatus), old(clients), old(lastBlock),
             old(lastCommit), now + old(timeOffset), env, lib)
        && Success(lastCommit) == lib.makeExtendedCommit(old(curState), old(curState.lastBlockHeight) + 1, proposal.votes)
      ensures r.Failure? ==> lastBlock == if AbortsBeforeBlock(r.error) then old(lastBlock) else proposal.block
      ensures r.Failure? && !r.error.CommitCallFailed? ==> curState == old(curState)
      ensures r.Failure? && r.error.CommitCallFailed? ==>
        && |clients| > 0
        && env.finalizeBlock(clients[0], proposal.block).Success?
        && StateAfter(old(curState), proposal.block, env.finalizeBlock(clients[0], proposal.block).value, lib).Some?
        && curState == StateAfter(old(curState), proposal.block, env.finalizeBlock(clients[0], proposal.block).value, lib).value
      ensures r.Failure? && r.error.CommitCallFailed? ==>
        curState.lastBlockHeight == old(curState.lastBlockHeight) + 1 && curState.appHash == []
    {
      proposal := Proposed(None, lastBlock, []);
      var proposed := ProposeAndVote(
        tx, proposer, misbehaving, curState, signingStatus, clients, lastBlock, lastCommit,
        now + timeOffset, errorOnUnequalResponses, env, lib);
      assert proposed.Success? ==>
        IsProposal(proposed.value, tx, proposer, misbehaving, old(curState), old(signingStatus), old(clients),
                   old(lastBlock), old(lastCommit), now + old(timeOffset), env, lib);
      if proposed.Failure? {
        return Failure(proposed.error), proposal;
      }
      var p := proposed.value;
      proposal := p;
      ProposalNamesProposer(p, tx, proposer, misbehaving, old(curState), old(signingStatus), old(clients),
                            old(lastBlock), old(lastCommit), now + old(timeOffset), env, lib);
      var committed := CommitBlock(p.block, p.votes, env);
      if committed.Failure? {
        return Failure(committed.error), proposal;
      }
      return Success(RoundResult(p.checkTx, committed.value.0, committed.value.1)), proposal;
    }

    /** A round proposed by the previous height's proposer, at the offset clock, without misbehaviour. */
    method RunBlock(tx: Option<Tx>, now: int, env: Collaborators) returns (r: Result<RoundResult, RoundError>)
      modifies this`curState, this`lastBlock, this`lastCommit
      ensures r.Success? ==>
        && curState.lastBlockHeight == old(curState.lastBlockHeight) + 1
        && lastBlock.header.proposerAddress == AddressOf(old(curState.lastValidators.proposer))
        && lastBlock.evidence == []
        && (tx.Some? <==> r.value.checkTx.Some?)
      ensures r.Failure? ==> curState == old(curState) || r.error.CommitCallFailed?
      ensures r.Failure? && r.error.CommitCallFailed? ==> curState.lastBlockHeight == old(curState.lastBlockHeight) + 1
    {
      ghost var proposal;
      r, proposal := RunBlockWithTimeAndProposer(tx, now + timeOffset, curState.lastValidators.proposer, [], now, env);
    }

    /** A round like RunBlock's that also carries evidence against the given validators. */
    method RunBlockWithEvidence(tx: Option<Tx>, misbehaving: seq<(Validator, MisbehaviourType)>, now: int, env: Collaborators)
      returns (r: Result<RoundResult, RoundError>)
      modifies this`curState, this`lastBlock, this`lastCommit
      ensures r.Success? ==>
        && curState.lastBlockHeight == old(curState.lastBlockHeight) + 1
        && lastBlock.header.proposerAddress == AddressOf(old(curState.lastValidators.proposer))
        && Success(lastBlock.evidence)
           == MapAll(misbehaving, EvidenceMaker(old(curState), old(lastBlock), old(lastCommit), now + old(timeOffset), env, lib))
      ensures r.Failure? && AbortsBeforeCommit(r.error) ==>
        curState == old(curState) && lastBlock == old(lastBlock) && lastCommit == old(lastCommit)
      ensures r.Failure? ==> curState == old(curState) || r.error.CommitCallFailed?
    {
      ghost var proposal;
      r, proposal := RunBlockWithTimeAndProposer(tx, now + timeOffset, curState.lastValidators.proposer, misbehaving, now, env);
    }

    /** Runs empty rounds one after another; the first failing round stops the run. */
    method RunEmptyBlocks(numBlocks: int, now: int, env: Collaborators) returns (r: Outcome<RoundError>)
      modifies this`curState, this`lastBlock, this`lastCommit
      ensures r.Pass? ==> curState.lastBlockHeight == old(curState.lastBlockHeight) + (if numBlocks < 0 then 0 else numBlocks)
      ensures old(curState.lastBlockHeight) <= curState.lastBlockHeight
      ensures numBlocks >= 0 ==> curState.lastBlockHeight <= old(curState.lastBlockHeight) + numBlocks
    {
      var i := 0;
      while i < numBlocks
        invariant 0 <= i <= (if numBlocks < 0 then 0 else numBlocks)
        invariant curState.lastBlockHeight == old(curState.lastBlockHeight) + i
      {
        var res := RunBlock(None, now, env);
        if res.Failure? {
          if res.error.CommitCallFailed? {
            // the state advanced before the failure
            assert curState.lastBlockHeight == old(curState.lastBlockHeight) + i + 1;
          }
          return Fail(res.error);
        }
        i := i + 1;
      }
      return Pass;
    }

    /**
     * Runs a round carrying duplicate-vote evidence against the current
     * validator with the given address; an unknown address runs no round.
     */
    method CauseDoubleSign(address: string, now: int, env: Collaborators) returns (r: Outcome<RoundError>)
      modifies this`curState, this`lastBlock, this`lastCommit
      ensures !NamesValidator(old(curState).validators, address) ==>
        && r == Fail(ValidatorNotFound(address))
        && curState == old(curState) && lastBlock == old(lastBlock) && lastCommit == old(lastCommit)
      ensures r.Pass? ==>
        && curState.lastBlockHeight == old(curState.lastBlockHeight) + 1
        && |lastBlock.evidence| == 1
        && lastBlock.evidence[0].DuplicateVoteEvidence?
        && DecodeHex(address) == Some(lastBlock.evidence[0].voteA.validatorAddress)
        && Hex(lastBlock.evidence[0].voteA.validatorAddress) == address
    {
      var validator := GetValidatorFromAddress(address);
      if validator.Failure? {
        return Fail(validator.error);
      }
      ghost var f := EvidenceMaker(curState, lastBlock, lastCommit, now + timeOffset, env, lib);
      var res := RunBlockWithEvidence(None, [(validator.value, DuplicateVote)], now, env);
      if res.Failure? {
        return Fail(res.error);
      }
      MapAllElementwise([(validator.value, DuplicateVote)], f);
      return Pass;
    }

    /**
     * Runs a round carrying light-client-attack evidence of the named kind
     * against the current validator with the given address; an unknown
     * address or kind runs no round.
     */
    method CauseLightClientAttack(address: string, kindName: string, now: int, env: Collaborators) returns (r: Outcome<RoundError>)
      modifies this`curState, this`lastBlock, this`lastCommit
      ensures !NamesValidator(old(curState).validators, address) ==>
        r == Fail(ValidatorNotFound(address))
      ensures !NamesValidator(old(curState).validators, address) || ParseLightClientAttack(kindName).Failure? ==>
        && r.Fail?
        && curState == old(curState) && lastBlock == old(lastBlock) && lastCommit == old(lastCommit)
      ensures NamesValidator(old(curState).validators, address) && ParseLightClientAttack(kindName).Failure? ==>
        r == Fail(EvidenceFailed(ParseLightClientAttack(kindName).error))
      ensures r.Pass? ==>
        && (kindName == "Lunatic" || kindName == "Amnesia" || kindName == "Equivocation")
        && curState.lastBlockHeight == old(curState.lastBlockHeight) + 1
        && |lastBlock.evidence| == 1
        && lastBlock.evidence[0].LightClientAttackEvidence?
        && |lastBlock.evidence[0].byzantineValidators| == 1
        && Hex(lastBlock.evidence[0].byzantineValidators[0].address) == address
        && GetByAddress(old(curState).validators, lastBlock.evidence[0].byzantineValidators[0].address).1
           == Some(lastBlock.evidence[0].byzantineValidators[0])
    {
      var validator := GetValidatorFromAddress(address);
      if validator.Failure? {
        return Fail(validator.error);
      }
      var kind := ParseLightClientAttack(kindName);
      if kind.Failure? {
        return Fail(EvidenceFailed(kind.error));
      }
      ghost var f := EvidenceMaker(curState, lastBlock, lastCommit, now + timeOffset, env, lib);
      var res := RunBlockWithEvidence(None, [(validator.value, kind.value)], now, env);
      if res.Failure? {
        return Fail(res.error);
      }
      MapAllElementwise([(validator.value, kind.value)], f);
      return Pass;
    }
  }
}
