/**
 * The pieces of one block-production round that are functions of values:
 * the answers of the engine's collaborators, the proposal block, each
 * validator's vote and the verdicts on proposals and vote extensions. The
 * engine's methods are proved against these.
 */
module Round {
  import opened Wrappers
  import opened Chain
  import opened StateTransition
  import opened Misbehaviour
  import opened Dispatch
  import opened Addresses

  /** The size limit passed to the transaction-list check: -1, since no mempool picks the transactions. */
  const MaxDataBytes: int := -1

  datatype ProcessStatus = Unknown | Accept | Reject

  datatype CheckTxResponse = CheckTxResponse(code: nat, data: Bytes)

  datatype CommitResponse = CommitResponse(retainHeight: int)

  /**
   * What the engine's collaborators answer during a round: each
   * application backend's answer to each protocol call, and the storage's
   * answers. The calls themselves are not modelled; their answers are
   * inputs.
   */
  datatype Collaborators = Collaborators(
    checkTx: (CounterpartyClient, Tx) -> Result<CheckTxResponse, string>,
    prepareProposal: (CounterpartyClient, Block) -> Result<seq<Tx>, CallError>,
    processProposal: (CounterpartyClient, Block) -> Result<ProcessStatus, string>,
    extendVote: (CounterpartyClient, Block) -> Result<Bytes, string>,
    verifyVoteExtension: (CounterpartyClient, Block, Vote) -> Result<ProcessStatus, string>,
    finalizeBlock: (CounterpartyClient, Block) -> Result<FinalizeResponse, string>,
    commit: CounterpartyClient -> Result<CommitResponse, string>,
    storedState: int -> Result<State, string>,
    updateStores: (int, Block, Commit, State, FinalizeResponse) -> Outcome<string>)

  /** Why a broadcast to all backends gave no single response. */
  datatype DispatchError =
    | CallFailed(networkAddress: string, reason: string)
    | NotAllEqual(index: nat)
    | NoResponses  // the source indexes the first response and panics

  datatype RoundError =
    | CheckTxFailed(dispatch: DispatchError)
    | FinalizeFailed(dispatch: DispatchError)
    | CommitCallFailed(dispatch: DispatchError)
    | EvidenceFailed(evidence: EvidenceError)
    | ProposerNotFound(address: string)
    | UndecodableAddress(address: string)
    | InvalidProposalTxs
    | ClientNotFound(address: string)
    | ProcessProposalFailed(address: string, reason: string)
    | ProposalRejected(address: string)
    | SigningStatusNotFound(address: string)
    | VoteFailed(address: string, reason: string)
    | CommitFailed(reason: string)
    | CommitNotTrusted
    | InvalidLightBlock
    | StoreFailed(reason: string)
    | InvalidValidatorUpdate(update: UpdateError)
    | UndecodableValidatorUpdates(reason: string)
    | StateUpdateFailed(state: StateError)
    | ValidatorNotFound(address: string)
    | Halt(reason: string)  // the source panics and the process ends

  /** The first backend that represents the validator with this address. */
  function ClientOf(cs: seq<CounterpartyClient>, address: string): (r: Option<CounterpartyClient>)
    ensures r.Some? ==> r.value.validatorAddress == address
  {
    if cs == [] then None
    else if cs[0].validatorAddress == address then Some(cs[0])
    else ClientOf(cs[1..], address)
  }

  /** Some validator of the set has an address whose hex text is `address`. */
  predicate NamesValidator(vs: ValidatorSet, address: string)
  {
    exists j :: 0 <= j < |vs.validators| && Hex(vs.validators[j].address) == address
  }

  /** A validator has no backend exactly when no backend carries its address; otherwise the first one that does is its backend. */
  lemma {:induction false} ClientOfFindsFirst(cs: seq<CounterpartyClient>, address: string)
    ensures ClientOf(cs, address).None? <==> forall i :: 0 <= i < |cs| ==> cs[i].validatorAddress != address
    ensures ClientOf(cs, address).Some? ==>
      exists k :: 0 <= k < |cs| && cs[k] == ClientOf(cs, address).value
                  && forall j :: 0 <= j < k ==> cs[j].validatorAddress != address
  {
    if cs != [] && cs[0].validatorAddress != address {
      ClientOfFindsFirst(cs[1..], address);
      if ClientOf(cs, address).Some? {
        var k :| 0 <= k < |cs[1..]| && cs[1..][k] == ClientOf(cs, address).value
                 && forall j :: 0 <= j < k ==> cs[1..][j].validatorAddress != address;
        assert cs[k + 1] == ClientOf(cs, address).value;
        assert forall j :: 1 <= j < k + 1 ==> cs[j].validatorAddress != address by {
          forall j | 1 <= j < k + 1 ensures cs[j].validatorAddress != address {
            assert cs[j] == cs[1..][j - 1];
          }
        }
      } else {
        forall i | 0 <= i < |cs| ensures cs[i].validatorAddress != address {
          if i > 0 { assert cs[i] == cs[1..][i - 1]; }
        }
      }
    }
  }

  /** The transactions offered to the proposer: the submitted transaction, if any. */
  function CandidateTxs(tx: Option<Tx>): (txs: seq<Tx>)
    ensures |txs| <= 1
    ensures txs == [] <==> tx.None?
    ensures tx.Some? ==> txs[0] == tx.value
  {
    if tx.Some? then [tx.value] else []
  }

  /** A block at `height` on top of state `s`; the library chooses its time. */
  function MakeBlock(
    s: State, height: int, txs: seq<Tx>, lastCommit: Commit, evidence: seq<Evidence>, proposer: Address, lib: Library): (b: Block)
    ensures b.header.height == height && b.header.chainId == s.chainId
    ensures b.txs == txs && b.evidence == evidence && b.lastCommit == lastCommit
    ensures b.header.proposerAddress == proposer && b.header.appHash == s.appHash
  {
    Block(Header(s.chainId, height, lib.blockTime(s, height, lastCommit), s.lastBlockId, s.appHash, proposer),
          txs, evidence, lastCommit)
  }

  /**
   * The proposal: the proposer's backend gets a draft block with the
   * candidate transactions and may return another transaction list, which
   * must pass the list check and becomes the block's. The header names the
   * proposer by the address its backend's text decodes to. A proposer that
   * cannot be reached ends the process.
   */
  function CreateProposalBlock(
    s: State, proposer: CounterpartyClient, height: int, txs: seq<Tx>, evidence: seq<Evidence>,
    lastCommit: Commit, env: Collaborators, lib: Library): (r: Result<Block, RoundError>)
    ensures DecodeHex(proposer.validatorAddress).None? ==> r == Failure(UndecodableAddress(proposer.validatorAddress))
    ensures DecodeHex(proposer.validatorAddress).Some? ==>
            var draft := MakeBlock(s, height, txs, lastCommit, evidence, DecodeHex(proposer.validatorAddress).value, lib);
            var prepared := env.prepareProposal(proposer, draft);
            && (prepared.Failure? ==> r.Failure? && r.error.Halt?)
            && (prepared.Success? ==> (r.Success? <==> lib.txsValid(prepared.value, MaxDataBytes)))
            && (r.Success? ==> prepared.Success? && r.value.txs == prepared.value)
    ensures r.Success? ==>
      && DecodeHex(proposer.validatorAddress).Some?
      && r.value.header.height == height
      && r.value.header.proposerAddress == DecodeHex(proposer.validatorAddress).value
      && r.value.evidence == evidence
      && r.value.lastCommit == lastCommit
    ensures r.Failure? ==> r.error.Halt? || r.error == InvalidProposalTxs || r.error.UndecodableAddress?
  {
    match DecodeHex(proposer.validatorAddress)
    case None => Failure(UndecodableAddress(proposer.validatorAddress))
    case Some(proposerAddress) =>
      var draft := MakeBlock(s, height, txs, lastCommit, evidence, proposerAddress, lib);
      match env.prepareProposal(proposer, draft)
      case Failure(_) => Failure(Halt("PrepareProposal gave no answer"))
      case Success(modified) =>
        if !lib.txsValid(modified, MaxDataBytes) then Failure(InvalidProposalTxs)
        else Success(MakeBlock(s, height, modified, lastCommit, evidence, proposerAddress, lib))
  }

  /** A non-proposer's verdict on the proposal: anything but acceptance stops the round. */
  function ProposalVerdict(c: CounterpartyClient, answer: Result<ProcessStatus, string>): (r: Outcome<RoundError>)
    ensures r.Pass? <==> answer == Success(Accept)
    ensures answer == Success(Reject) ==> r == Fail(ProposalRejected(c.validatorAddress))
    ensures answer == Success(Unknown) ==> r.Fail? && r.error.Halt?
    ensures answer.Failure? ==> r == Fail(ProcessProposalFailed(c.validatorAddress, answer.error))
  {
    match answer
    case Failure(e) => Fail(ProcessProposalFailed(c.validatorAddress, e))
    case Success(Unknown) => Fail(Halt("ProcessProposal answered with an unknown status"))
    case Success(Reject) => Fail(ProposalRejected(c.validatorAddress))
    case Success(Accept) => Pass
  }

  /** The precommit for `block` by the validator with the given address, unsigned: the vote both versions below build. */
  function PrecommitFor(address: Address, index: int, block: Block, lib: Library): (vote: Vote)
    ensures vote.validatorAddress == address && vote.validatorIndex == index
    ensures vote.height == block.header.height && vote.round == block.lastCommit.round
    ensures vote.timestamp == block.header.time && vote.voteType == Precommit
    ensures vote.blockId == lib.blockIdOf(block) && vote.extension == [] && vote.signature == []
  {
    Vote(address, index, block.header.height, block.lastCommit.round, block.header.time, Precommit, lib.blockIdOf(block), [], [])
  }

  /**
   * The precommit the backend `client` signs for `block`: its validator's
   * address, decoded from the backend's text, and that address's index in
   * the current set, the block's height, time and ID, and an extension
   * from the backend when extensions are enabled at that height.
   */
  function ExtendAndSignVote(s: State, client: CounterpartyClient, block: Block, env: Collaborators, lib: Library): (r: Result<Vote, string>)
    ensures r.Failure? <==>
      || DecodeHex(client.validatorAddress).None?
      || (lib.voteExtensionsEnabled(s.consensusParams, block.header.height) && env.extendVote(client, block).Failure?)
    ensures r.Success? ==>
      && DecodeHex(client.validatorAddress).Some?
      && r.value.validatorAddress == DecodeHex(client.validatorAddress).value
      && r.value.validatorIndex == GetByAddress(s.validators, r.value.validatorAddress).0
      && r.value.height == block.header.height
      && r.value.round == block.lastCommit.round
      && r.value.timestamp == block.header.time
      && r.value.voteType == Precommit
      && r.value.blockId == lib.blockIdOf(block)
      && r.value.extension ==
           (if lib.voteExtensionsEnabled(s.consensusParams, block.header.height) then env.extendVote(client, block).value else [])
    ensures r.Success? ==> r.value.signature == lib.signVote(s.chainId, r.value.(signature := []))
  {
    match DecodeHex(client.validatorAddress)
    case None => Failure("validator address is not hex text")
    case Some(address) =>
      var unsigned := PrecommitFor(address, GetByAddress(s.validators, address).0, block, lib);
      if lib.voteExtensionsEnabled(s.consensusParams, block.header.height) then
        match env.extendVote(client, block)
        case Failure(e) => Failure(e)
        case Success(ext) =>
          var extended := unsigned.(extension := ext);
          Success(extended.(signature := lib.signVote(s.chainId, extended)))
      else Success(unsigned.(signature := lib.signVote(s.chainId, unsigned)))
  }

  /**
   * The vote as client.go builds it. The address is the backend's text
   * converted to bytes as Go converts a string (its UTF-8 bytes), both in
   * the vote and for the index lookup. The signer is handed a protobuf copy
   * of the vote, so the signature it produces lands on the copy and the
   * vote returned keeps an empty signature. Everything else agrees with
   * ExtendAndSignVote.
   */
  function ExtendAndSignVoteAsWritten(s: State, client: CounterpartyClient, block: Block, env: Collaborators, lib: Library): (r: Result<Vote, string>)
    ensures r.Failure? <==>
      lib.voteExtensionsEnabled(s.consensusParams, block.header.height) && env.extendVote(client, block).Failure?
    ensures r.Success? ==>
      && r.value.validatorAddress == Utf8(client.validatorAddress)
      && r.value.validatorIndex == GetByAddress(s.validators, Utf8(client.validatorAddress)).0
      && r.value.signature == []
    ensures r.Success? && ExtendAndSignVote(s, client, block, env, lib).Success? ==>
      r.value == ExtendAndSignVote(s, client, block, env, lib).value.(
        validatorAddress := Utf8(client.validatorAddress),
        validatorIndex := GetByAddress(s.validators, Utf8(client.validatorAddress)).0,
        signature := [])
  {
    var address := Utf8(client.validatorAddress);
    var unsigned := PrecommitFor(address, GetByAddress(s.validators, address).0, block, lib);
    if lib.voteExtensionsEnabled(s.consensusParams, block.header.height) then
      match env.extendVote(client, block)
      case Failure(e) => Failure(e)
      case Success(ext) => Success(unsigned.(extension := ext))
    else Success(unsigned)
  }

  /**
   * Whenever the signer produces a non-empty signature, the vote client.go
   * returns differs from the signed vote: the signature is lost.
   */
  lemma AsWrittenVoteLosesSignature(s: State, client: CounterpartyClient, block: Block, env: Collaborators, lib: Library)
    requires ExtendAndSignVote(s, client, block, env, lib).Success?
    requires ExtendAndSignVote(s, client, block, env, lib).value.signature != []
    ensures ExtendAndSignVoteAsWritten(s, client, block, env, lib).Success?
    ensures ExtendAndSignVoteAsWritten(s, client, block, env, lib).value.signature == []
    ensures ExtendAndSignVoteAsWritten(s, client, block, env, lib).value != ExtendAndSignVote(s, client, block, env, lib).value
  {
  }

  /**
   * For a backend whose text is the hex rendering of a validator address
   * of the standard size, in a set whose addresses all have that size, the
   * vote client.go builds names no validator: its address is the 40 bytes
   * of the text, its index is -1, so it fails basic vote validation, and
   * its address does not render as the backend's text, so the backend is
   * asked to verify the extension of its own vote.
   */
  lemma AsWrittenVoteHasNoIndex(s: State, client: CounterpartyClient, a: Address, block: Block, env: Collaborators, lib: Library)
    requires |a| == AddressSize && client.validatorAddress == Hex(a)
    requires forall i :: 0 <= i < |s.validators.validators| ==> |s.validators.validators[i].address| == AddressSize
    requires ExtendAndSignVoteAsWritten(s, client, block, env, lib).Success?
    ensures var vote := ExtendAndSignVoteAsWritten(s, client, block, env, lib).value;
      && vote.validatorIndex == -1
      && !VoteValidBasic(vote, lib)
      && vote.validatorAddress != a
      && Hex(vote.validatorAddress) != client.validatorAddress
  {
    HexTextBytesDiffer(a);
  }

  /**
   * One validator's slot in the vote list: None when its signing status is
   * off, its signed precommit when on; a validator without a signing
   * status, or signing without a backend, stops the round. Signing status
   * and backend are looked up by the hex text of the validator's address.
   */
  function Ballot(
    s: State, signing: map<string, bool>, cs: seq<CounterpartyClient>, block: Block,
    env: Collaborators, lib: Library, v: Validator): (r: Result<Option<Vote>, RoundError>)
    ensures Hex(v.address) !in signing ==> r == Failure(SigningStatusNotFound(Hex(v.address)))
    ensures r.Success? ==> Hex(v.address) in signing && (r.value.None? <==> !signing[Hex(v.address)])
    ensures r.Success? && r.value.Some? ==>
      && ClientOf(cs, Hex(v.address)).Some?
      && Success(r.value.value) == ExtendAndSignVote(s, ClientOf(cs, Hex(v.address)).value, block, env, lib)
      && r.value.value.validatorAddress == v.address
      && r.value.value.validatorIndex == GetByAddress(s.validators, v.address).0
    ensures Hex(v.address) in signing && signing[Hex(v.address)] ==>
      (r.Success? <==>
         ClientOf(cs, Hex(v.address)).Some? && ExtendAndSignVote(s, ClientOf(cs, Hex(v.address)).value, block, env, lib).Success?)
  {
    var key := Hex(v.address);
    DecodeHexInvertsHex(v.address);
    if key !in signing then Failure(SigningStatusNotFound(key))
    else if !signing[key] then Success(None)
    else match ClientOf(cs, key)
      case None => Failure(ClientNotFound(key))
      case Some(c) =>
        match ExtendAndSignVote(s, c, block, env, lib)
        case Failure(e) => Failure(VoteFailed(key, e))
        case Success(vote) => Success(Some(vote))
  }

  /** The ballot constructor for a round: Ballot on the round's state, signing statuses, clients and block. */
  function BallotMaker(
    s: State, signing: map<string, bool>, cs: seq<CounterpartyClient>, block: Block, env: Collaborators, lib: Library)
    : (f: Validator -> Result<Option<Vote>, RoundError>)
    ensures forall v :: f(v) == Ballot(s, signing, cs, block, env, lib, v)
  {
    (v: Validator) => Ballot(s, signing, cs, block, env, lib, v)
  }

  /**
   * The vote list, when every ballot can be cast: one slot per current
   * validator in the set's order, empty exactly when that validator's
   * signing status is off, and otherwise holding a vote of that validator
   * whose index points at a validator of the set with that address, as
   * the vote set requires.
   */
  lemma VotesFollowSigning(
    s: State, signing: map<string, bool>, cs: seq<CounterpartyClient>, block: Block, env: Collaborators, lib: Library)
    requires MapAll(s.validators.validators, BallotMaker(s, signing, cs, block, env, lib)).Success?
    ensures var vals := s.validators.validators;
            var votes := MapAll(vals, BallotMaker(s, signing, cs, block, env, lib)).value;
            && |votes| == |vals|
            && forall i :: 0 <= i < |votes| ==>
                 && Hex(vals[i].address) in signing
                 && (votes[i].None? <==> !signing[Hex(vals[i].address)])
                 && (votes[i].Some? ==>
                       && votes[i].value.validatorAddress == vals[i].address
                       && 0 <= votes[i].value.validatorIndex < |vals|
                       && vals[votes[i].value.validatorIndex].address == vals[i].address)
  {
    var vals := s.validators.validators;
    MapAllElementwise(vals, BallotMaker(s, signing, cs, block, env, lib));
    forall i | 0 <= i < |vals| ensures GetByAddress(s.validators, vals[i].address).1.Some? {
      assert vals[i].address == vals[i].address;
    }
  }

  /** A backend accepts a vote's extension, or is not asked: the slot is empty or the vote renders as its own address. */
  predicate ExtensionAccepted(c: CounterpartyClient, vote: Option<Vote>, block: Block, env: Collaborators)
  {
    vote.None? || Hex(vote.value.validatorAddress) == c.validatorAddress
    || env.verifyVoteExtension(c, block, vote.value) == Success(Accept)
  }

  /** A backend accepts the extensions of all the other validators' votes. */
  predicate AcceptsAllExtensions(c: CounterpartyClient, votes: seq<Option<Vote>>, block: Block, env: Collaborators)
  {
    forall j :: 0 <= j < |votes| ==> ExtensionAccepted(c, votes[j], block, env)
  }

  /**
   * The network address of a validator's backend, the key the
   * vote-extension checks are ordered by; "" for a validator without a
   * backend, which the checks never compare.
   */
  function NetworkKey(cs: seq<CounterpartyClient>, v: Validator): string
  {
    match ClientOf(cs, Hex(v.address))
    case None => ""
    case Some(c) => c.networkAddress
  }

  /** No element's key is below an earlier element's. */
  predicate SortedBy<T>(xs: seq<T>, key: T -> string)
  {
    forall i, j :: 0 <= i < j < |xs| ==> !StrLess(key(xs[j]), key(xs[i]))
  }

  /** Inserts an element into a list sorted by `key`, before the first element whose key is not below its own. */
  function InsertBy<T>(key: T -> string, x: T, sorted: seq<T>): (r: seq<T>)
    ensures multiset(r) == multiset(sorted) + multiset{x}
    ensures forall i :: 0 <= i < |r| ==> r[i] == x || r[i] in sorted
  {
    if sorted == [] || !StrLess(key(sorted[0]), key(x)) then [x] + sorted
    else
      assert sorted == [sorted[0]] + sorted[1..];
      [sorted[0]] + InsertBy(key, x, sorted[1..])
  }

  /** Inserting before an element whose key is not below the new one keeps a sorted list sorted. */
  lemma InsertFrontKeepsSorted<T>(key: T -> string, x: T, sorted: seq<T>)
    requires SortedBy(sorted, key)
    requires sorted != [] && !StrLess(key(sorted[0]), key(x))
    ensures SortedBy([x] + sorted, key)
  {
    var r := [x] + sorted;
    forall i, j | 0 <= i < j < |r| ensures !StrLess(key(r[j]), key(r[i])) {
      if i == 0 && j > 1 {
        StrNotLessTransitive(key(x), key(sorted[0]), key(sorted[j - 1]));
      }
    }
  }

  /** Inserting into a sorted list keeps it sorted. */
  lemma {:induction false} InsertKeepsSorted<T>(key: T -> string, x: T, sorted: seq<T>)
    requires SortedBy(sorted, key)
    ensures SortedBy(InsertBy(key, x, sorted), key)
  {
    if sorted != [] && !StrLess(key(sorted[0]), key(x)) {
      InsertFrontKeepsSorted(key, x, sorted);
    } else if sorted != [] {
      var rest := sorted[1..];
      var inserted := InsertBy(key, x, rest);
      InsertKeepsSorted(key, x, rest);
      var r := [sorted[0]] + inserted;
      assert InsertBy(key, x, sorted) == r;
      forall i, j | 0 <= i < j < |r| ensures !StrLess(key(r[j]), key(r[i])) {
        if i == 0 {
          var y := inserted[j - 1];
          assert y in inserted;
          if y == x {
            StrLessAsymmetric(key(sorted[0]), key(x));
          } else {
            var k :| 0 <= k < |rest| && rest[k] == y;
            assert sorted[k + 1] == y;
          }
        } else {
          assert r[i] == inserted[i - 1] && r[j] == inserted[j - 1];
        }
      }
    }
  }

  /** The elements ordered by `key` (an insertion sort, so elements with equal keys keep their order). */
  function SortBy<T>(xs: seq<T>, key: T -> string): (r: seq<T>)
    ensures multiset(r) == multiset(xs)
  {
    if xs == [] then []
    else
      assert xs == [xs[0]] + xs[1..];
      InsertBy(key, xs[0], SortBy(xs[1..], key))
  }

  /** The sorted list is a permutation of the input in the order of the keys. */
  lemma {:induction false} SortBySorts<T>(xs: seq<T>, key: T -> string)
    ensures SortedBy(SortBy(xs, key), key)
    ensures |SortBy(xs, key)| == |xs|
  {
    if xs != [] {
      SortBySorts(xs[1..], key);
      InsertKeepsSorted(key, xs[0], SortBy(xs[1..], key));
    }
    assert |multiset(SortBy(xs, key))| == |multiset(xs)|;
  }

  /** The key the vote-extension checks order the validators by. */
  function NetworkKeyOf(cs: seq<CounterpartyClient>): (key: Validator -> string)
    ensures forall v :: key(v) == NetworkKey(cs, v)
  {
    (v: Validator) => NetworkKey(cs, v)
  }

  /**
   * The validators ordered by their backends' network addresses, as the
   * vote-extension checks visit them. The source's sort is not stable; the
   * order it gives equal keys is not modelled.
   */
  function SortByNetworkAddress(vals: seq<Validator>, cs: seq<CounterpartyClient>): (r: seq<Validator>)
    ensures multiset(r) == multiset(vals) && |r| == |vals|
    ensures SortedBy(r, NetworkKeyOf(cs))
  {
    SortBySorts(vals, NetworkKeyOf(cs));
    SortBy(vals, NetworkKeyOf(cs))
  }

  /**
   * The engine's state after the vote-extension checks as client.go runs
   * them: the slice it sorts is the engine's own current validator set, so
   * the set is reordered in place by network address. Nothing else changes.
   */
  function ExtensionChecksStateAsWritten(s: State, cs: seq<CounterpartyClient>): (s': State)
    ensures multiset(s'.validators.validators) == multiset(s.validators.validators)
    ensures SortedBy(s'.validators.validators, NetworkKeyOf(cs))
    ensures s'.(validators := s.validators) == s && s'.validators.proposer == s.validators.proposer
  {
    s.(validators := s.validators.(validators := SortByNetworkAddress(s.validators.validators, cs)))
  }

  /**
   * Two validators whose backends' network addresses run against the set's
   * order: after the checks as written the engine's set holds them swapped,
   * so the first validator's vote, which carries index 0 from before the
   * checks, points at the other validator when the votes are added, and a
   * round that aborts after the checks leaves the set reordered.
   */
  lemma AsWrittenSortMisplacesVotes(s: State, va: Validator, vb: Validator)
    requires s.validators.validators == [va, vb] && va.address == [1] && vb.address == [2]
    ensures var cs := [CounterpartyClient("b:1", Hex(va.address), true), CounterpartyClient("a:1", Hex(vb.address), true)];
            var s' := ExtensionChecksStateAsWritten(s, cs);
            && GetByAddress(s.validators, va.address).0 == 0
            && s'.validators.validators == [vb, va]
            && s'.validators.validators[GetByAddress(s.validators, va.address).0].address != va.address
            && s' != s
  {
    var cs := [CounterpartyClient("b:1", Hex(va.address), true), CounterpartyClient("a:1", Hex(vb.address), true)];
    assert Hex(va.address) == "01" && Hex(vb.address) == "02";
    assert ClientOf(cs[1..], "02") == Some(cs[1]);
    assert NetworkKey(cs, va) == "b:1" && NetworkKey(cs, vb) == "a:1";
    assert StrLess("a:1", "b:1");
    assert SortBy([vb], NetworkKeyOf(cs)) == [vb];
    assert [va, vb][1..] == [vb];
  }

  /**
   * The clients of the validators other than the proposer, in the
   * validator set's order (a validator without a client contributes none).
   */
  function NonProposerClients(vals: seq<Validator>, cs: seq<CounterpartyClient>, proposer: string): (r: seq<CounterpartyClient>)
    ensures |r| <= |vals|
  {
    if vals == [] then []
    else
      var n := |vals| - 1;
      NonProposerClients(vals[..n], cs, proposer) + ClientUnlessProposer(ClientOf(cs, Hex(vals[n].address)), proposer)
  }

  /**
   * The non-proposer clients are exactly the clients of the validators
   * other than the proposer: none of them is the proposer's, and every
   * other validator that has a client contributes it.
   */
  lemma {:induction false} NonProposerClientsComplete(vals: seq<Validator>, cs: seq<CounterpartyClient>, proposer: string)
    ensures forall c :: c in NonProposerClients(vals, cs, proposer) ==> c.validatorAddress != proposer
    ensures forall i :: 0 <= i < |vals| && Hex(vals[i].address) != proposer && ClientOf(cs, Hex(vals[i].address)).Some? ==>
      ClientOf(cs, Hex(vals[i].address)).value in NonProposerClients(vals, cs, proposer)
  {
    if vals != [] {
      var n := |vals| - 1;
      NonProposerClientsComplete(vals[..n], cs, proposer);
      forall i | 0 <= i < n ensures vals[..n][i] == vals[i] { }
    }
  }

  /** The client, if any and unless it is the proposer's. */
  function ClientUnlessProposer(c: Option<CounterpartyClient>, proposer: string): seq<CounterpartyClient>
  {
    if c.Some? && c.value.validatorAddress != proposer then [c.value] else []
  }

  /** Extending a prefix of the validator list by one validator adds at most its client, at the end. */
  lemma NonProposerClientsAppend(vals: seq<Validator>, i: nat, cs: seq<CounterpartyClient>, proposer: string)
    requires i < |vals|
    ensures NonProposerClients(vals[..i + 1], cs, proposer) ==
      NonProposerClients(vals[..i], cs, proposer) + ClientUnlessProposer(ClientOf(cs, Hex(vals[i].address)), proposer)
  {
    assert vals[..i + 1][..i] == vals[..i];
  }

  /**
   * The evidence for one misbehaving validator: duplicate votes for
   * DuplicateVote, a light-client attack for the other kinds. The stored
   * state of the last block's height comes from storage; votes carry the
   * current time plus the engine's time offset.
   */
  function EvidenceFor(
    v: Validator, kind: MisbehaviourType, s: State, lastBlock: Block, lastCommit: Commit, voteTime: int,
    env: Collaborators, lib: Library): (r: Result<Evidence, EvidenceError>)
    ensures r.Success? ==> (kind == DuplicateVote <==> r.value.DuplicateVoteEvidence?)
    ensures r.Success? && kind != DuplicateVote ==> r.value.byzantineValidators == [v]
    ensures r.Success? && kind == DuplicateVote ==>
      && r.value.voteA.validatorAddress == r.value.voteB.validatorAddress == v.address
      && r.value.voteA.timestamp == r.value.voteB.timestamp == voteTime
  {
    var lastState := env.storedState(lastBlock.header.height);
    if kind == DuplicateVote then ConstructDuplicateVoteEvidence(v, lastBlock, lastState, s.chainId, voteTime, voteTime, lib)
    else ConstructLightClientAttackEvidence(v, kind, lastBlock, lastState, lastCommit, s.validators)
  }

  /**
   * Applies `f` to each element in order and collects the results; the
   * first element `f` fails on gives the error.
   */
  function MapAll<A, B, E>(xs: seq<A>, f: A -> Result<B, E>): (r: Result<seq<B>, E>)
    ensures r.Success? ==> |r.value| == |xs|
  {
    if |xs| == 0 then Success([])
    else
      var init := MapAll(xs[..|xs| - 1], f);
      var last := f(xs[|xs| - 1]);
      if init.Failure? then init
      else if last.Failure? then Failure(last.error)
      else Success(init.value + [last.value])
  }

  /**
   * The collected list holds `f`'s result for each element at that
   * element's position; it exists exactly when `f` succeeds on every
   * element, and otherwise its error is `f`'s on the first element it fails
   * on.
   */
  lemma {:induction false} MapAllElementwise<A, B, E>(xs: seq<A>, f: A -> Result<B, E>)
    ensures MapAll(xs, f).Success? <==> forall i :: 0 <= i < |xs| ==> f(xs[i]).Success?
    ensures MapAll(xs, f).Success? ==> forall i :: 0 <= i < |xs| ==> f(xs[i]) == Success(MapAll(xs, f).value[i])
    ensures MapAll(xs, f).Failure? ==>
      exists i ::
        && 0 <= i < |xs|
        && f(xs[i]) == Failure(MapAll(xs, f).error)
        && forall j :: 0 <= j < i ==> f(xs[j]).Success?
  {
    if |xs| > 0 {
      var init := xs[..|xs| - 1];
      MapAllElementwise(init, f);
      assert forall i :: 0 <= i < |init| ==> init[i] == xs[i];
    }
  }

  /** Once `f` fails on a prefix, the whole list fails with the same error. */
  lemma {:induction false} MapAllPrefixFails<A, B, E>(xs: seq<A>, k: nat, f: A -> Result<B, E>)
    requires k <= |xs|
    requires MapAll(xs[..k], f).Failure?
    ensures MapAll(xs, f) == MapAll(xs[..k], f)
  {
    if k < |xs| {
      var n := |xs| - 1;
      assert xs[..n][..k] == xs[..k];
      MapAllPrefixFails(xs[..n], k, f);
    } else {
      assert xs[..k] == xs;
    }
  }

  /** The evidence constructor for a round: EvidenceFor on the round's state, last block, last commit and vote time. */
  function EvidenceMaker(
    s: State, lastBlock: Block, lastCommit: Commit, voteTime: int, env: Collaborators, lib: Library)
    : (f: ((Validator, MisbehaviourType)) -> Result<Evidence, EvidenceError>)
    ensures forall m :: f(m) == EvidenceFor(m.0, m.1, s, lastBlock, lastCommit, voteTime, env, lib)
  {
    (m: (Validator, MisbehaviourType)) => EvidenceFor(m.0, m.1, s, lastBlock, lastCommit, voteTime, env, lib)
  }
}
