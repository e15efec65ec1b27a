/**
 * The evidence synthesiser: evidence records that make a validator look
 * Byzantine, built from the last committed block.
 */
module Misbehaviour {
  import opened Wrappers
  import opened Chain

  datatype MisbehaviourType = DuplicateVote | Lunatic | Amnesia | Equivocation

  datatype EvidenceError =
    | UnknownMisbehaviourName(name: string)
    | NotALightClientAttack(kind: MisbehaviourType)
    | StateNotStored(reason: string)
    | InvalidVote(vote: Vote)

  /** The name an operator uses for each light-client attack kind. */
  function AttackName(kind: MisbehaviourType): string
  {
    match kind
    case DuplicateVote => "DuplicateVote"
    case Lunatic => "Lunatic"
    case Amnesia => "Amnesia"
    case Equivocation => "Equivocation"
  }

  /** Maps an operator's attack name to the light-client attack kind; only the three light-client kinds are accepted. */
  function ParseLightClientAttack(name: string): (r: Result<MisbehaviourType, EvidenceError>)
    ensures r.Success? <==> name == "Lunatic" || name == "Amnesia" || name == "Equivocation"
    ensures r.Success? ==> r.value != DuplicateVote && AttackName(r.value) == name
    ensures r.Failure? ==> r.error == UnknownMisbehaviourName(name)
  {
    if name == "Lunatic" then Success(Lunatic)
    else if name == "Amnesia" then Success(Amnesia)
    else if name == "Equivocation" then Success(Equivocation)
    else Failure(UnknownMisbehaviourName(name))
  }

  /** Parsing is the inverse of naming for the three light-client attack kinds. */
  lemma ParseAttackNameRoundTrip(kind: MisbehaviourType)
    requires kind != DuplicateVote
    ensures ParseLightClientAttack(AttackName(kind)) == Success(kind)
  {
    match kind
    case Lunatic =>
    case Amnesia =>
    case Equivocation =>
  }

  /** The part of a vote's basic validation the evidence relies on: a non-negative index; the rest is the library's. */
  predicate VoteValidBasic(v: Vote, lib: Library)
  {
    v.validatorIndex >= 0 && lib.voteWellFormed(v)
  }

  /** A precommit by `v` for the block `blockId` at `height` in `round`, signed for `chainId`. */
  function SignedPrecommit(
    v: Validator, index: int, height: int, round: int, time: int, blockId: BlockId, chainId: string, lib: Library): (vote: Vote)
    ensures vote.validatorAddress == v.address && vote.validatorIndex == index
    ensures vote.height == height && vote.round == round && vote.timestamp == time
    ensures vote.voteType == Precommit && vote.blockId == blockId && vote.extension == []
  {
    var unsigned := Vote(v.address, index, height, round, time, Precommit, blockId, [], []);
    unsigned.(signature := lib.signVote(chainId, unsigned))
  }

  /**
   * Duplicate-vote evidence against `v`: two precommits for the last block
   * that differ only in their round (1 and 2), each of which has to pass
   * basic vote validation. `lastState` is what storage holds for the last
   * block's height; each vote carries its own reading of the current time
   * plus the engine's offset, `voteTimeA` and `voteTimeB`.
   */
  function ConstructDuplicateVoteEvidence(
    v: Validator,
    lastBlock: Block,
    lastState: Result<State, string>,
    chainId: string,
    voteTimeA: int,
    voteTimeB: int,
    lib: Library): (r: Result<Evidence, EvidenceError>)
    ensures lastState.Failure? ==> r == Failure(StateNotStored(lastState.error))
    ensures r.Success? ==>
      var index := GetByAddress(lastState.value.validators, v.address).0;
      && r.value.DuplicateVoteEvidence?
      && r.value.voteA.validatorAddress == r.value.voteB.validatorAddress == v.address
      && r.value.voteA.validatorIndex == r.value.voteB.validatorIndex == index
      && r.value.voteA.height == r.value.voteB.height == lastBlock.header.height
      && r.value.voteA.voteType == r.value.voteB.voteType == Precommit
      && r.value.voteA.blockId == r.value.voteB.blockId == lib.blockIdOf(lastBlock)
      && r.value.voteA.round == 1 && r.value.voteB.round == 2
      && r.value.voteA.timestamp == voteTimeA && r.value.voteB.timestamp == voteTimeB
      && r.value.voteA.(round := 2, timestamp := voteTimeB, signature := r.value.voteB.signature) == r.value.voteB
      && VoteValidBasic(r.value.voteA, lib) && VoteValidBasic(r.value.voteB, lib)
      && 0 <= index < |lastState.value.validators.validators|
      && r.value.validatorPower == lastState.value.validators.validators[index].votingPower
      && r.value.totalVotingPower == TotalVotingPower(lastState.value.validators)
      && r.value.timestamp == lastBlock.header.time
    ensures lastState.Success? ==>
      var index := GetByAddress(lastState.value.validators, v.address).0;
      var blockId := lib.blockIdOf(lastBlock);
      (r.Success? <==>
        && (exists j :: 0 <= j < |lastState.value.validators.validators|
                        && lastState.value.validators.validators[j].address == v.address)
        && lib.voteWellFormed(SignedPrecommit(v, index, lastBlock.header.height, 1, voteTimeA, blockId, chainId, lib))
        && lib.voteWellFormed(SignedPrecommit(v, index, lastBlock.header.height, 2, voteTimeB, blockId, chainId, lib)))
  {
    if lastState.Failure? then Failure(StateNotStored(lastState.error))
    else
      var blockId := lib.blockIdOf(lastBlock);
      var (index, valInLastState) := GetByAddress(lastState.value.validators, v.address);
      var voteA := SignedPrecommit(v, index, lastBlock.header.height, 1, voteTimeA, blockId, chainId, lib);
      var voteB := SignedPrecommit(v, index, lastBlock.header.height, 2, voteTimeB, blockId, chainId, lib);
      if !VoteValidBasic(voteA, lib) then Failure(InvalidVote(voteA))
      else if !VoteValidBasic(voteB, lib) then Failure(InvalidVote(voteB))
      else Success(DuplicateVoteEvidence(
        voteA := voteA,
        voteB := voteB,
        totalVotingPower := TotalVotingPower(lastState.value.validators),
        validatorPower := valInLastState.value.votingPower,
        timestamp := lastBlock.header.time))
  }

  /** The string the lunatic attack puts in place of the app hash: the bytes of "some other app hash". */
  const LunaticAppHash: Bytes :=
    [115, 111, 109, 101, 32, 111, 116, 104, 101, 114, 32, 97, 112, 112, 32, 104, 97, 115, 104]

  /**
   * A copy of `lastBlock` changed by the attack kind: the lunatic attack
   * replaces the app hash, equivocation moves the time one second later,
   * amnesia leaves the copy as it is, and a duplicate vote is not a
   * light-client attack.
   */
  function ConflictingBlock(lastBlock: Block, kind: MisbehaviourType): (r: Result<Block, EvidenceError>)
    ensures kind == DuplicateVote <==> r.Failure?
    ensures kind == Lunatic ==> r == Success(lastBlock.(header := lastBlock.header.(appHash := LunaticAppHash)))
    ensures kind == Equivocation ==> r == Success(lastBlock.(header := lastBlock.header.(time := lastBlock.header.time + Second)))
    ensures kind == Amnesia ==> r == Success(lastBlock)
  {
    match kind
    case Lunatic => Success(lastBlock.(header := lastBlock.header.(appHash := LunaticAppHash)))
    case Amnesia => Success(lastBlock)
    case Equivocation => Success(lastBlock.(header := lastBlock.header.(time := lastBlock.header.time + Second)))
    case DuplicateVote => Failure(NotALightClientAttack(kind))
  }

  /**
   * Light-client-attack evidence against `v`: the conflicting copy of the
   * last block, signed by the last commit and carrying the current
   * validator set, with `v` as the only Byzantine validator and the height
   * before the last block as the common height.
   */
  function ConstructLightClientAttackEvidence(
    v: Validator,
    kind: MisbehaviourType,
    lastBlock: Block,
    lastState: Result<State, string>,
    lastCommit: Commit,
    currentValidators: ValidatorSet): (r: Result<Evidence, EvidenceError>)
    ensures lastState.Failure? ==> r == Failure(StateNotStored(lastState.error))
    ensures lastState.Success? ==> (r.Success? <==> kind != DuplicateVote)
    ensures r.Success? ==> r.value.LightClientAttackEvidence?
    ensures r.Success? && r.value.LightClientAttackEvidence? ==>
      var conflicting := r.value.conflictingBlock.signedHeader.header;
      && r.value.byzantineValidators == [v]
      && r.value.commonHeight == lastBlock.header.height - 1
      && r.value.conflictingBlock.signedHeader.commit == lastCommit
      && r.value.conflictingBlock.validatorSet == currentValidators
      && r.value.totalVotingPower == TotalVotingPower(lastState.value.validators)
      && r.value.timestamp == lastBlock.header.time
      && (kind == Lunatic ==> conflicting == lastBlock.header.(appHash := LunaticAppHash))
      && (kind == Equivocation ==> conflicting == lastBlock.header.(time := lastBlock.header.time + Second))
      && (kind == Amnesia ==> conflicting == lastBlock.header)
  {
    if lastState.Failure? then Failure(StateNotStored(lastState.error))
    else
      var conflicting := ConflictingBlock(lastBlock, kind);
      if conflicting.Failure? then Failure(conflicting.error)
      else
        var signedHeader := SignedHeader(conflicting.value.header, lastCommit);
        Success(LightClientAttackEvidence(
          conflictingBlock := LightBlock(signedHeader, currentValidators),
          commonHeight := lastBlock.header.height - 1,
          byzantineValidators := [v],
          totalVotingPower := TotalVotingPower(lastState.value.validators),
          timestamp := lastBlock.header.time))
  }

  /**
   * Which attacks really conflict with the last block: equivocation always
   * does, the lunatic attack does unless the app hash already was the
   * replacement, and amnesia never does (it leaves the copy unchanged).
   */
  lemma ConflictingHeaderDiffers(lastBlock: Block, kind: MisbehaviourType)
    requires kind != DuplicateVote
    ensures var h := ConflictingBlock(lastBlock, kind).value.header;
            && (kind == Equivocation ==> h != lastBlock.header && h.time > lastBlock.header.time)
            && (kind == Lunatic ==> (h != lastBlock.header <==> lastBlock.header.appHash != LunaticAppHash))
            && (kind == Amnesia ==> h == lastBlock.header)
            && h.height == lastBlock.header.height
  {
    if kind == Equivocation {
      var h := ConflictingBlock(lastBlock, kind).value.header;
      assert h.time == lastBlock.header.time + Second;
    }
  }
}
