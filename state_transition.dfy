/**
 * The state transition function: how the chain state advances after a
 * block is finalized, and the admission rules for the validator updates an
 * application returns.
 */
module StateTransition {
  import opened Wrappers
  import opened Chain

  datatype UpdateError =
    | NegativePower(update: ValidatorUpdate)
    | UndecodableKey(update: ValidatorUpdate)
    | UnsupportedKeyType(update: ValidatorUpdate, keyType: string)

  datatype StateError =
    | ValidatorSetChangeFailed(reason: string)
    | InvalidConsensusParams(params: ConsensusParams)

  /** Whether the consensus parameters allow validators to use keys of this type. */
  predicate IsValidPubKeyType(params: ConsensusParams, keyType: string)
  {
    keyType in params.pubKeyTypes
  }

  /**
   * The admission rule for one validator update: a negative power is
   * rejected, a zero power (a removal) is admitted without looking at the
   * key, and a positive power needs a decodable key of an allowed type.
   */
  function CheckUpdate(u: ValidatorUpdate, params: ConsensusParams): (r: Outcome<UpdateError>)
    ensures u.power < 0 ==> r == Fail(NegativePower(u))
    ensures u.power == 0 ==> r == Pass
    ensures u.power > 0 ==> (r.Pass? <==> u.pubKey.Some? && IsValidPubKeyType(params, u.pubKey.value.keyType))
    ensures r.Fail? ==> r.error.update == u
  {
    if u.power < 0 then Fail(NegativePower(u))
    else if u.power == 0 then Pass
    else if u.pubKey.None? then Fail(UndecodableKey(u))
    else if !IsValidPubKeyType(params, u.pubKey.value.keyType) then Fail(UnsupportedKeyType(u, u.pubKey.value.keyType))
    else Pass
  }

  /**
   * Checks the updates in order and returns the rejection of the first one
   * that is not admitted.
   */
  method ValidateValidatorUpdates(updates: seq<ValidatorUpdate>, params: ConsensusParams) returns (r: Outcome<UpdateError>)
    ensures r.Pass? <==> forall i :: 0 <= i < |updates| ==> CheckUpdate(updates[i], params).Pass?
    ensures r.Fail? ==>
      exists i :: 0 <= i < |updates| && r == CheckUpdate(updates[i], params)
                  && forall j :: 0 <= j < i ==> CheckUpdate(updates[j], params).Pass?
  {
    var i := 0;
    while i < |updates|
      invariant 0 <= i <= |updates|
      invariant forall j :: 0 <= j < i ==> CheckUpdate(updates[j], params).Pass?
    {
      var u := updates[i];
      if u.power < 0 {
        return Fail(NegativePower(u));
      } else if u.power == 0 {
        i := i + 1;
        continue;
      }
      if u.pubKey.None? {
        return Fail(UndecodableKey(u));
      }
      if !IsValidPubKeyType(params, u.pubKey.value.keyType) {
        return Fail(UnsupportedKeyType(u, u.pubKey.value.keyType));
      }
      i := i + 1;
    }
    return Pass;
  }

  /**
   * The next chain state after the block with `header` was finalized with
   * the response `res` and the decoded validator updates `validatorUpdates`.
   * Validator changes become the next-next validator set (active two heights
   * later), parameter changes become the parameters of the next height, and
   * the app hash is left empty until the commit call returns it.
   */
  function UpdateState(
    cur: State,
    blockId: BlockId,
    header: Header,
    res: FinalizeResponse,
    validatorUpdates: seq<Validator>,
    lib: Library): (r: Result<State, StateError>)
    ensures r.Failure? <==>
      || (|validatorUpdates| > 0 && lib.updateWithChangeSet(cur.nextValidators, validatorUpdates).Failure?)
      || (res.consensusParamUpdates.Some?
          && !lib.paramsValid(lib.updateParams(cur.consensusParams, res.consensusParamUpdates.value)))
    ensures r.Success? ==>
      && r.value.lastBlockHeight == header.height
      && r.value.lastBlockId == blockId
      && r.value.lastBlockTime == header.time
      && r.value.chainId == cur.chainId
      && r.value.initialHeight == cur.initialHeight
      && r.value.lastValidators == cur.validators
      && r.value.validators == cur.nextValidators
      && r.value.appHash == []
      && r.value.lastResultsHash == lib.txResultsHash(res.txResults)
    ensures r.Success? ==>
      && (|validatorUpdates| > 0 ==>
            && r.value.lastHeightValidatorsChanged == header.height + 2
            && r.value.nextValidators
               == lib.incrementProposerPriority(lib.updateWithChangeSet(cur.nextValidators, validatorUpdates).value))
      && (|validatorUpdates| == 0 ==>
            && r.value.lastHeightValidatorsChanged == cur.lastHeightValidatorsChanged
            && r.value.nextValidators == lib.incrementProposerPriority(cur.nextValidators))
    ensures r.Success? ==>
      && (res.consensusParamUpdates.Some? ==>
            && r.value.lastHeightConsensusParamsChanged == header.height + 1
            && r.value.consensusParams == lib.updateParams(cur.consensusParams, res.consensusParamUpdates.value)
            && r.value.version == cur.version.(app := r.value.consensusParams.appVersion))
      && (res.consensusParamUpdates.None? ==>
            && r.value.lastHeightConsensusParamsChanged == cur.lastHeightConsensusParamsChanged
            && r.value.consensusParams == cur.consensusParams
            && r.value.version == cur.version)
  {
    var changed :=
      if |validatorUpdates| > 0 then lib.updateWithChangeSet(cur.nextValidators, validatorUpdates)
      else Success(cur.nextValidators);
    if changed.Failure? then Failure(ValidatorSetChangeFailed(changed.error))
    else
      var lastHeightValsChanged :=
        if |validatorUpdates| > 0 then header.height + 1 + 1 else cur.lastHeightValidatorsChanged;
      var nValSet := lib.incrementProposerPriority(changed.value);
      var nextParams :=
        if res.consensusParamUpdates.Some? then lib.updateParams(cur.consensusParams, res.consensusParamUpdates.value)
        else cur.consensusParams;
      if res.consensusParamUpdates.Some? && !lib.paramsValid(nextParams) then Failure(InvalidConsensusParams(nextParams))
      else
        var lastHeightParamsChanged :=
          if res.consensusParamUpdates.Some? then header.height + 1 else cur.lastHeightConsensusParamsChanged;
        var nextVersion :=
          if res.consensusParamUpdates.Some? then cur.version.(app := nextParams.appVersion) else cur.version;
        Success(State(
          version := nextVersion,
          chainId := cur.chainId,
          initialHeight := cur.initialHeight,
          lastBlockHeight := header.height,
          lastBlockId := blockId,
          lastBlockTime := header.time,
          nextValidators := nValSet,
          validators := cur.nextValidators,
          lastValidators := cur.validators,
          lastHeightValidatorsChanged := lastHeightValsChanged,
          consensusParams := nextParams,
          lastHeightConsensusParamsChanged := lastHeightParamsChanged,
          lastResultsHash := lib.txResultsHash(res.txResults),
          appHash := []))
  }

  /**
   * Delayed activation: validator updates returned for the block at height
   * H are not in the validator set of height H+1 (the state after H), and
   * are the validator set of height H+2 (the state after H+1), whatever
   * happens at H+1; the bookkeeping records H+2 as the change height.
   */
  lemma ValidatorChangesTakeEffectTwoHeightsLater(
    s0: State,
    id1: BlockId, h1: Header, res1: FinalizeResponse, upd1: seq<Validator>,
    id2: BlockId, h2: Header, res2: FinalizeResponse, upd2: seq<Validator>,
    lib: Library)
    requires |upd1| > 0
    requires UpdateState(s0, id1, h1, res1, upd1, lib).Success?
    requires UpdateState(UpdateState(s0, id1, h1, res1, upd1, lib).value, id2, h2, res2, upd2, lib).Success?
    ensures var s1 := UpdateState(s0, id1, h1, res1, upd1, lib).value;
            var s2 := UpdateState(s1, id2, h2, res2, upd2, lib).value;
            && s1.validators == s0.nextValidators
            && s1.lastHeightValidatorsChanged == h1.height + 2
            && s2.validators
               == lib.incrementProposerPriority(lib.updateWithChangeSet(s0.nextValidators, upd1).value)
            && s2.lastValidators == s0.nextValidators
  {
  }

  /** Without validator updates or parameter updates, the change heights carry over unchanged. */
  lemma QuietBlockKeepsChangeHeights(cur: State, id: BlockId, h: Header, res: FinalizeResponse, lib: Library)
    requires res.consensusParamUpdates.None?
    ensures UpdateState(cur, id, h, res, [], lib).Success?
    ensures var s := UpdateState(cur, id, h, res, [], lib).value;
            && s.lastHeightValidatorsChanged == cur.lastHeightValidatorsChanged
            && s.lastHeightConsensusParamsChanged == cur.lastHeightConsensusParamsChanged
            && s.consensusParams == cur.consensusParams
  {
  }
}
