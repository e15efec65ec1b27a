/**
 * The chain data the block-production engine works on: validators, blocks,
 * votes, evidence and the chain state, as values.
 *
 * The operations of the consensus library that the engine calls but whose
 * code is not part of this model (validator-set updates, proposer rotation,
 * parameter updates, hashing, signing, vote aggregation, commit checks) are
 * the fields of `Library`: every property proved below holds for every
 * choice of them.
 */
module Chain {
  import opened Wrappers

  newtype byte = x: int | 0 <= x < 256
  type Bytes = seq<byte>

  /**
   * A validator address: its raw bytes. The engine also handles addresses
   * as text (see the Addresses module), and converts between the two.
   */
  type Address = Bytes

  /** The size of a validator address: the first 20 bytes of the hash of its public key. */
  const AddressSize: nat := 20

  type Tx = Bytes

  /** Instants and durations are nanoseconds. */
  const Second: int := 1_000_000_000

  const MinInt64: int := -0x8000_0000_0000_0000
  const MaxInt64: int := 0x7fff_ffff_ffff_ffff

  predicate InInt64(x: int) { MinInt64 <= x <= MaxInt64 }

  datatype PubKey = PubKey(keyType: string, key: Bytes)

  datatype Validator = Validator(address: Address, pubKey: PubKey, votingPower: int, proposerPriority: int)

  datatype ValidatorSet = ValidatorSet(validators: seq<Validator>, proposer: Option<Validator>)

  /** The consensus parameters the engine reads: the public-key types allowed for validators and the app version. */
  datatype ConsensusParams = ConsensusParams(pubKeyTypes: seq<string>, voteExtensionsEnableHeight: int, appVersion: nat)

  /** The parameter changes an application returns from FinalizeBlock. */
  datatype ParamUpdates = ParamUpdates(pubKeyTypes: Option<seq<string>>, voteExtensionsEnableHeight: Option<int>, appVersion: Option<nat>)

  datatype PartSetHeader = PartSetHeader(total: nat, hash: Bytes)

  datatype BlockId = BlockId(hash: Bytes, partSetHeader: PartSetHeader)

  datatype Header = Header(chainId: string, height: int, time: int, lastBlockId: BlockId, appHash: Bytes, proposerAddress: Address)

  datatype VoteType = Prevote | Precommit

  datatype Vote = Vote(
    validatorAddress: Address,
    validatorIndex: int,
    height: int,
    round: int,
    timestamp: int,
    voteType: VoteType,
    blockId: BlockId,
    extension: Bytes,
    signature: Bytes)

  /** An (extended) commit: one slot per validator of the set, None for a validator that did not vote. */
  datatype Commit = Commit(height: int, round: int, blockId: BlockId, votes: seq<Option<Vote>>)

  datatype SignedHeader = SignedHeader(header: Header, commit: Commit)

  datatype LightBlock = LightBlock(signedHeader: SignedHeader, validatorSet: ValidatorSet)

  datatype Evidence =
    | DuplicateVoteEvidence(voteA: Vote, voteB: Vote, totalVotingPower: int, validatorPower: int, timestamp: int)
    | LightClientAttackEvidence(
        conflictingBlock: LightBlock,
        commonHeight: int,
        byzantineValidators: seq<Validator>,
        totalVotingPower: int,
        timestamp: int)

  datatype Block = Block(header: Header, txs: seq<Tx>, evidence: seq<Evidence>, lastCommit: Commit)

  datatype Version = Version(block: nat, app: nat)

  /** The chain state: exactly one live copy, owned by the engine. */
  datatype State = State(
    version: Version,
    chainId: string,
    initialHeight: int,
    lastBlockHeight: int,
    lastBlockId: BlockId,
    lastBlockTime: int,
    nextValidators: ValidatorSet,
    validators: ValidatorSet,
    lastValidators: ValidatorSet,
    lastHeightValidatorsChanged: int,
    consensusParams: ConsensusParams,
    lastHeightConsensusParamsChanged: int,
    lastResultsHash: Bytes,
    appHash: Bytes)

  datatype TxResult = TxResult(code: nat, data: Bytes)

  /** A validator update as an application returns it; `pubKey` is None when its key encoding cannot be decoded. */
  datatype ValidatorUpdate = ValidatorUpdate(pubKey: Option<PubKey>, power: int)

  datatype FinalizeResponse = FinalizeResponse(
    txResults: seq<TxResult>,
    validatorUpdates: seq<ValidatorUpdate>,
    consensusParamUpdates: Option<ParamUpdates>,
    appHash: Bytes)

  /** The consensus library's operations, left uninterpreted. */
  datatype Library = Library(
    updateWithChangeSet: (ValidatorSet, seq<Validator>) -> Result<ValidatorSet, string>,
    incrementProposerPriority: ValidatorSet -> ValidatorSet,
    updateParams: (ConsensusParams, ParamUpdates) -> ConsensusParams,
    paramsValid: ConsensusParams -> bool,
    txResultsHash: seq<TxResult> -> Bytes,
    validatorsFromUpdates: seq<ValidatorUpdate> -> Result<seq<Validator>, string>,
    blockIdOf: Block -> BlockId,
    blockTime: (State, int, Commit) -> int,
    txsValid: (seq<Tx>, int) -> bool,
    signVote: (string, Vote) -> Bytes,
    voteWellFormed: Vote -> bool,
    voteExtensionsEnabled: (ConsensusParams, int) -> bool,
    makeExtendedCommit: (State, int, seq<Option<Vote>>) -> Result<Commit, string>,
    verifyCommitLightTrusting: (ValidatorSet, string, Commit) -> bool,
    lightBlockValid: (LightBlock, string) -> bool)

  /** The sum of the voting powers of a list of validators. */
  function TotalPower(vals: seq<Validator>): int
  {
    if vals == [] then 0 else TotalPower(vals[..|vals| - 1]) + vals[|vals| - 1].votingPower
  }

  function TotalVotingPower(vs: ValidatorSet): int
  {
    TotalPower(vs.validators)
  }

  /** The position of the first validator at or after `from` with the given address, or -1. */
  function IndexFrom(vals: seq<Validator>, address: Address, from: nat): (i: int)
    requires from <= |vals|
    ensures i == -1 || from <= i < |vals|
    ensures i == -1 <==> forall j :: from <= j < |vals| ==> vals[j].address != address
    ensures i != -1 ==> vals[i].address == address && forall j :: from <= j < i ==> vals[j].address != address
    decreases |vals| - from
  {
    if from == |vals| then -1
    else if vals[from].address == address then from
    else IndexFrom(vals, address, from + 1)
  }

  /**
   * The index of the validator with the given address and the validator,
   * or -1 and None when no validator has that address.
   */
  function GetByAddress(vs: ValidatorSet, address: Address): (r: (int, Option<Validator>))
    ensures r.0 == -1 <==> r.1.None?
    ensures r.1.None? <==> forall j :: 0 <= j < |vs.validators| ==> vs.validators[j].address != address
    ensures r.1.Some? ==>
      && 0 <= r.0 < |vs.validators|
      && vs.validators[r.0] == r.1.value
      && r.1.value.address == address
      && forall j :: 0 <= j < r.0 ==> vs.validators[j].address != address
  {
    var i := IndexFrom(vs.validators, address, 0);
    if i == -1 then (-1, None) else (i, Some(vs.validators[i]))
  }
}
