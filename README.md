# CometMock block-production engine, in Dafny

CometMock stands in for a CometBFT consensus node in front of one or more
ABCI applications. The applications are the "backends" or counterparty
clients. Each represents one validator.

This project models two parts of it:

- **The engine (`AbciClient`).** It owns the chain state, the last block
  and commit, the backends and their liveness flags, a map of which
  validators sign, and a clock offset. It runs one block-production round
  at a time:
  - CheckTx on the submitted transaction;
  - evidence for misbehaving validators;
  - PrepareProposal by the proposer;
  - ProcessProposal by every other validator;
  - precommits, with vote extensions and their verification;
  - the commit and its sanity checks;
  - FinalizeBlock, the stores, the state transition and Commit.
- **The query routes.** These serve validator pages and the latest block
  from the latest state.

How the pieces are modelled:

- The chain data are values (`Chain`).
- The CometBFT library operations the engine calls are the function fields
  of `Chain.Library`: hashing, signing, validator-set updates, proposer
  rotation, parameter updates, commit building and checking. The answers of
  the backends and of the storage are the function fields of
  `Round.Collaborators`. Every property below holds for every choice of
  these.
- A panic in the source becomes the error `Halt`. A broadcast that gets no
  responses fails with `NoResponses` (the source panics indexing an empty list,
  client.go:477-486).
- Validator addresses are raw bytes (`Chain.Address`). The engine renders
  them as upper-case hex text, and its backends and signing-status map are
  keyed by that text (`Addresses`). Where the source converts such text back
  to bytes with Go's `[]byte(...)`, it gets the text's UTF-8 bytes, not the
  address; see Findings.
- The wall clock is a parameter `now`.
- Go's `int64` wrap-around and truncating division are written out where
  they matter.

Module layout, following the source:

| module | models |
|---|---|
| `Addresses` | hex text of addresses, Go's string-to-bytes conversion and string order |
| `StateTransition` | `UpdateState` and `validateValidatorUpdates` |
| `Misbehaviour` | the evidence constructors |
| `Dispatch` | the liveness tracking of `callClientsWithTimeout` |
| `Round` | the value-level pieces of a round |
| `RoundSteps` | the loops of a round on values, each proved against `Round` |
| `Engine` | the `AbciClient` object |
| `Routes` | `rpc_server/routes.go` |

## Model

| member | source | states |
|---|---|---|
| Chain.GetByAddress | cometmock/abci_client/client.go:692 | The index and validator of the first validator with the address. -1 and none exactly when no validator has it. |
| Addresses.DecodeHexInvertsHex | cometmock/abci_client/client.go:138 | Decoding the hex text of an address (as `Address.String()` renders it) gives the address back, so the text names exactly one address. |
| Addresses.HexTextBytesDiffer | cometmock/abci_client/client.go:632 | Go's `[]byte` of the hex text of a non-empty address has twice as many bytes as the address: it is never the address, and its own hex text is never the original text. |
| Addresses.StrLessTransitive | cometmock/abci_client/client.go:1071 | Go's `<` on strings is transitive. |
| Addresses.StrLessTotal | cometmock/abci_client/client.go:1071 | Of two different strings one is below the other under Go's `<`. |
| Addresses.StrLessAsymmetric | cometmock/abci_client/client.go:1071 | No string is both above and below another under Go's `<`. |
| StateTransition.CheckUpdate | cometmock/abci_client/client.go:1306-1324 | A negative power is rejected. A zero power (removal) is admitted without a key check. A positive power needs a decodable key of an allowed type. A rejection names the update. |
| StateTransition.ValidateValidatorUpdates | cometmock/abci_client/client.go:1302-1327 | Passes exactly when every update is admitted. Otherwise returns the rejection of the first update that is not admitted. |
| StateTransition.UpdateState | cometmock/abci_client/client.go:1238-1299 | Fails exactly when the validator change set or the updated parameters are refused. On success it gives: the new height, ID and time; validators shifted (next → current → last); the app hash emptied; the change heights (H+2 for validators, H+1 for parameters); the app version from the new parameters. |
| StateTransition.ValidatorChangesTakeEffectTwoHeightsLater | cometmock/abci_client/client.go:1250-1258 | Validator updates returned at height H are not in the set of H+1. They form the set of H+2 whatever happens at H+1. |
| StateTransition.QuietBlockKeepsChangeHeights | cometmock/abci_client/client.go:1250-1278 | Without validator or parameter updates the state update cannot fail. Both change heights and the parameters carry over. |
| Misbehaviour.ParseLightClientAttack | cometmock/abci_client/client.go:107-118 | Accepts exactly "Lunatic", "Amnesia" and "Equivocation", as a light-client kind. Any other name is an unknown-type error. |
| Misbehaviour.ParseAttackNameRoundTrip | cometmock/abci_client/client.go:107-118 | Parsing the name of a light-client attack kind gives back that kind. |
| Misbehaviour.SignedPrecommit | cometmock/abci_client/client.go:694-719 | A precommit by the validator with the given index, height, round, time and block ID, and no extension. |
| Misbehaviour.ConstructDuplicateVoteEvidence | cometmock/abci_client/client.go:678-746 | Fails when the stored state of the last height is missing. It succeeds exactly when the validator is in that state and both votes pass validation. The two votes are the validator's precommits for the last block. They agree except for the round (1 and 2), the signature and the time: each vote carries its own clock reading. The powers come from the stored state. |
| Misbehaviour.ConflictingBlock | cometmock/abci_client/client.go:769-780 | Lunatic replaces the app hash with "some other app hash". Equivocation adds one second to the time. Amnesia keeps the block. A duplicate vote is refused. |
| Misbehaviour.ConstructLightClientAttackEvidence | cometmock/abci_client/client.go:748-800 | Fails when the stored state is missing. Otherwise it succeeds exactly for a light-client kind. The evidence has: the validator as the only Byzantine one; common height one below the last block; the conflicting header for the kind, signed by the last commit; the current validator set. |
| Misbehaviour.ConflictingHeaderDiffers | cometmock/abci_client/client.go:769-780 | Equivocation always yields a different, later header. Lunatic differs unless the hash already was the replacement. Amnesia never differs. The height is kept. |
| Dispatch.AfterCall | cometmock/abci_client/client.go:290-307 | After a call a backend is reachable exactly when it was reachable and its call succeeded. Its addresses are kept. |
| Dispatch.MarkFailures | cometmock/abci_client/client.go:290-311 | One broadcast maps every backend through AfterCall, position by position. |
| Dispatch.ResultsMatchSurvivors | cometmock/abci_client/client.go:287-311 | After a broadcast, the reachable backends are exactly as many as the results. There are never more results than reachable backends before it. |
| Dispatch.UnreachableStaysUnreachable | cometmock/abci_client/client.go:290-294 | There is no reconnection. An unreachable backend is unchanged by any number of later broadcasts. |
| Round.ClientOfFindsFirst | cometmock/abci_client/client.go:145-152 | No backend is found exactly when none carries the address. Otherwise the first backend carrying it is found. |
| Round.CandidateTxs | cometmock/abci_client/client.go:944-947 | The candidate list is empty exactly without a submitted transaction. Otherwise it holds just that transaction. |
| Round.MakeBlock | cometmock/abci_client/client.go:634 | A block at the height on the state's chain, with the given transactions, evidence, last commit and proposer, and the state's app hash. |
| Round.CreateProposalBlock | cometmock/abci_client/client.go:623-664 | A proposer address that is not hex text is an error. Otherwise the draft block names the decoded address as proposer. An unanswered PrepareProposal halts. Otherwise the proposal succeeds exactly when the returned transactions pass the list check, and it carries them. The height, evidence and last commit are the inputs. |
| Round.ProposalVerdict | cometmock/abci_client/client.go:804-830 | Passes exactly on acceptance. A rejection or a failed call names the backend. An unknown status halts. |
| Round.ExtendAndSignVote | cometmock/abci_client/client.go:832-876 | Fails exactly when the backend's address is not hex text, or extensions are enabled and ExtendVote fails. Otherwise returns the precommit of the validator the address decodes to: its index in the current set, the block's height, time and ID, the last commit's round, and the extension when enabled. The signature is over the rest of the vote. |
| Round.ExtendAndSignVoteAsWritten | cometmock/abci_client/client.go:836-875 | As written: fails exactly when extensions are enabled and ExtendVote fails. The vote's address is the UTF-8 bytes of the backend's address text, its index is looked up with those bytes, and its signature stays empty. Otherwise the vote is the one ExtendAndSignVote makes. |
| Round.AsWrittenVoteLosesSignature | cometmock/abci_client/client.go:874-875 | Whenever the signer produces a signature, the vote as written differs from the signed vote. |
| Round.AsWrittenVoteHasNoIndex | cometmock/abci_client/client.go:836-846 | As written, for a backend keyed by the hex text of a 20-byte validator address and a set of 20-byte addresses: the vote's index is -1, so the vote fails basic validation; its address is not the validator's, and its hex text does not match the backend's. |
| Round.Ballot | cometmock/abci_client/client.go:1037-1056 | A validator whose hex address has no signing status stops the round. Signing off gives an empty slot. Signing on gives the vote from the backend keyed by the validator's hex address, and succeeds exactly when the backend exists and the vote can be made. The vote names the validator's own address and its index in the current set. |
| Round.VotesFollowSigning | cometmock/abci_client/client.go:1032-1057 | A complete vote list has one slot per current validator, in order. A slot is empty exactly when that validator's signing is off. Otherwise it holds a vote with that validator's address and an index inside the set that points at that address. |
| Round.NonProposerClientsComplete | cometmock/abci_client/client.go:1008-1018 | The non-proposer list holds no proposer's backend. It holds the backend of every other validator that has one. |
| Round.EvidenceFor | cometmock/abci_client/client.go:964-981 | A duplicate vote gives duplicate-vote evidence with both votes by the validator, stamped with the engine's clock. The other kinds give light-client evidence naming only the validator. |
| Round.MapAllElementwise | cometmock/abci_client/client.go:964-981 | The list loop succeeds exactly when every element succeeds, and gives each element's result in place. Otherwise it gives the error of the first failing element. |
| Round.MapAllPrefixFails | cometmock/abci_client/client.go:977-979 | A failure on a prefix is the failure of the whole list. |
| Round.SortBySorts | cometmock/abci_client/client.go:1061-1072 | Insertion sort by a string key gives a list ordered by Go's `<` on the keys, with as many elements. |
| Round.SortByNetworkAddress | cometmock/abci_client/client.go:1061-1072 | The validators reordered by their backends' network addresses: the same validators, each as often, in ascending network-address order. |
| Round.ExtensionChecksStateAsWritten | cometmock/abci_client/client.go:1060-1072 | As written, the sort happens in the current validator set itself: the validators are permuted into network-address order and the rest of the state is kept. |
| Round.AsWrittenSortMisplacesVotes | cometmock/abci_client/client.go:1060-1072 | As written, two validators whose backends' network addresses sort the other way round swap places in the current set. The index recorded for the first validator's vote then points at the other validator, and the state has changed. |
| RoundSteps.SelectResponse | cometmock/abci_client/client.go:477-486 | Returns the first response. When responses must be equal, it fails exactly when one differs, and names the first that does. With no responses it fails (the source panics indexing the first). |
| RoundSteps.Broadcast | cometmock/abci_client/client.go:460-487 | Succeeds exactly when there are backends, every call succeeds, and (when required) all responses are equal. It returns the first backend's response. When a call fails, every earlier call succeeded, and the error names the first failing backend and its error. |
| RoundSteps.ConstructEvidences | cometmock/abci_client/client.go:964-981 | The evidence list is EvidenceFor of each misbehaving validator in order. The first failure stops the round with that error. |
| RoundSteps.NonProposers | cometmock/abci_client/client.go:1008-1018 | Succeeds exactly when every current validator has a backend, and returns the non-proposer backends. Otherwise it names a validator without one. |
| RoundSteps.AcceptedByAll | cometmock/abci_client/client.go:1020-1030 | When all non-proposers accept, every current validator other than the proposer that has a backend accepts. |
| RoundSteps.ProcessProposals | cometmock/abci_client/client.go:1020-1030 | Passes exactly when every non-proposer accepts. Otherwise it gives the verdict of the first that does not. |
| RoundSteps.CollectVotes | cometmock/abci_client/client.go:1032-1057 | The vote list is the Ballot of each current validator in order. The first ballot that cannot be cast stops the round. |
| RoundSteps.VerifyVoteExtensions | cometmock/abci_client/client.go:1059-1107 | With two or more validators, one without a backend halts the round (the sort's panic). The validators are visited in network-address order, on a sorted copy. It passes exactly when every validator has a backend that accepts every other validator's vote extension. |
| RoundSteps.VerifyExtensionsBy | cometmock/abci_client/client.go:1080-1104 | One backend's pass over the votes passes exactly when it accepts the extension of every vote that is not its own. A refusal or a failed call halts. |
| RoundSteps.VerifyExtensionsInOrder | cometmock/abci_client/client.go:1073-1105 | Passes exactly when every validator in the given order has a backend that accepts every other vote's extension. |
| RoundSteps.VerifiesExtensionsInAnyOrder | cometmock/abci_client/client.go:1061-1073 | Whether every validator's backend accepts the extensions is the same for any permutation of the validators, so the sort does not change whether the round passes. |
| RoundSteps.ProposeBlock | cometmock/abci_client/client.go:942-1006 | On success: the CheckTx response of the first backend, present exactly with a transaction; the proposer's proposal on the current state, carrying the evidence list. Its errors leave the engine unchanged. |
| RoundSteps.VoteOnProposal | cometmock/abci_client/client.go:1008-1107 | On success every non-proposer accepted the block, the votes are the ballots, and every backend accepted every extension. Its errors leave the engine unchanged. |
| RoundSteps.ProposeAndVote | cometmock/abci_client/client.go:942-1107 | The first stage of a round: the proposal followed by the verdicts and votes on it. Its errors leave the engine unchanged. |
| RoundSteps.ProposalNamesProposer | cometmock/abci_client/client.go:632-634 | A proposal's block names the proposer's address (decoded from its backend's text), is at the next height, and carries the evidence list. |
| Engine.GoAddInt64 | cometmock/abci_client/client.go:95 | Go's int64 addition: the exact sum when it fits, the sum wrapped by 2^64 otherwise. |
| Engine.IncrementedOffsetAsWritten | cometmock/abci_client/client.go:89-96 | As written: a negative increment is refused, and the new offset is the wrapped int64 sum. |
| Engine.AsWrittenOffsetCanDecrease | cometmock/abci_client/client.go:95 | As written, the largest offset plus one nanosecond becomes the smallest int64. |
| Engine.IncrementedOffset | cometmock/abci_client/client.go:89-96 | A negative or overflowing increment is refused. Otherwise the offset grows by exactly the increment. |
| Engine.AbciClient.constructor | cometmock/abci_client/client.go:212-245 | Every validator whose key the engine holds starts out signing. The engine starts with the given clients, state, last block and commit, and a zero offset. |
| Engine.AbciClient.IncrementTimeOffset | cometmock/abci_client/client.go:89-96 | A negative increment is refused. The offset grows by exactly the increment and never decreases. |
| Engine.AbciClient.GetSigningStatus | cometmock/abci_client/client.go:167-176 | The validator's signing status, keyed by hex address text. An address without one is an error. |
| Engine.AbciClient.SetSigningStatus | cometmock/abci_client/client.go:178-191 | An unknown address is refused and nothing changes. Otherwise only that validator's status changes, and reading it back gives the new status. |
| Engine.AbciClient.GetValidatorFromAddress | cometmock/abci_client/client.go:136-143 | The first current validator whose hex text is the given address, or a not-found error exactly when there is none. The validator found is the one its decoded address finds in the set. |
| Engine.AbciClient.GetCounterpartyFromAddress | cometmock/abci_client/client.go:145-152 | The first backend with the address, or a not-found error exactly when there is none. |
| Engine.AbciClient.CallClientsWithTimeout | cometmock/abci_client/client.go:287-311 | Calls exactly the reachable backends and never reports an error. It collects their successful results in order and marks the failed ones unreachable in place. |
| Engine.AbciClient.UpdateStateFromBlock | cometmock/abci_client/client.go:1200-1234 | Passes exactly when the updates are admitted and decodable and the state update succeeds. The new state is then UpdateState's. On an error the state is unchanged. |
| Engine.AbciClient.CommitBlock | cometmock/abci_client/client.go:1109-1192 | On success: the commit is built from the votes and passes both sanity checks; the responses are the first backend's; the stores took the block; the new state is UpdateState's stamped with the application's hash. An abort before the commit is built changes nothing. The later aborts keep the new commit; the last block is replaced exactly when the abort comes after FinalizeBlock (the stores, the state update or Commit); the state is replaced only when Commit fails, by the state after the first backend's FinalizeBlock with an empty app hash. |
| Engine.AbciClient.RunBlockWithTimeAndProposer | cometmock/abci_client/client.go:924-1193 | A successful round: a proposal, votes and CheckTx response satisfying ProposeAndVote's specification on the old state; the new block at the next height, naming the proposer and carrying the evidence of the misbehaving validators; a trusted commit of those votes; the state transition to the next height stamped with the application's hash. An abort before the commit changes nothing. Each later abort changes the commit, last block and state exactly as CommitBlock states for the proposal's block and votes. |
| Engine.AbciClient.RunBlock | cometmock/abci_client/client.go:668-670 | A round by the previous height's proposer, without evidence. On success the height grows by one and there is a CheckTx response exactly with a transaction. |
| Engine.AbciClient.RunBlockWithEvidence | cometmock/abci_client/client.go:674-676 | On success the block carries exactly the evidence list of the misbehaving validators, built on the old state and clock. |
| Engine.AbciClient.RunEmptyBlocks | cometmock/abci_client/client.go:555-563 | On success the height grows by exactly the number of blocks (none for a negative number). The height never decreases and never overshoots. |
| Engine.AbciClient.CauseDoubleSign | cometmock/abci_client/client.go:124-134 | An address that names no current validator runs no round. A success adds one block whose only evidence is a duplicate vote by the validator whose hex text is the address. |
| Engine.AbciClient.CauseLightClientAttack | cometmock/abci_client/client.go:99-122 | An address that names no current validator, or an unknown kind, runs no round. A success adds one block whose only evidence is a light-client attack naming just the validator whose hex text is the address. |
| Routes.ValidatePerPage | cometmock/rpc_server/routes.go:157-169 | The page size is always within [1, 100]. The default is 30 when absent or below 1, and larger sizes are capped at 100. |
| Routes.PageCount | cometmock/rpc_server/routes.go:144-147 | The least page count that holds all items, and one empty page for none. |
| Routes.EmptyListQuotient | cometmock/rpc_server/routes.go:144 | For an empty list Go's truncating (0-1)/perPage is -1 or 0. |
| Routes.ValidatePage | cometmock/rpc_server/routes.go:135-154 | Page 1 when absent. Otherwise the page is accepted exactly within [1, pages], and an error names the range and the page. |
| Routes.ValidateSkipCount | cometmock/rpc_server/routes.go:172-179 | The items before a page: (page-1)*perPage, and never negative. |
| Routes.ValidPageStartsInside | cometmock/rpc_server/routes.go:122-124 | A validated page starts inside the list, so the page slice is in bounds. |
| Routes.Validators | cometmock/rpc_server/routes.go:105-132 | An explicit height is refused. Otherwise the request succeeds exactly for a valid page. The result is the slice of the latest validators from the page's start, at most a page long, with its count, the total and the latest height. |
| Routes.NinetyFiveValidatorsExample | cometmock/rpc_server/routes.go:105-154 | With 95 validators and 30 per page, page 4 holds the last 5, and page 5 is out of range [1, 4]. |
| Routes.BlockAt | cometmock/rpc_server/routes.go:181-193 | An explicit height is refused. Otherwise it returns the latest block ID and an empty block at the latest height. |

## Left out

- Engine.AbciClient.IncrementTimeOffset: refuses an increment that would overflow int64. The source wraps around instead; see Findings.
- Round.ExtendAndSignVote: returns the signed vote. The source returns it unsigned; see Findings.
- Logging, the block mutex, the signing-status mutex and the storage lock are not modelled. This includes the storage lock left held when the stores or the state update fail (client.go:1171-1182). Rounds are sequential method calls.
- Timeouts: `callClientWithTimeout` (client.go:317-335) is not modelled. A backend's answer, or its failure to answer, is an input. `CallClientsWithTimeout` is modelled, but none of the round's broadcasts use it. As in the source, SendCheckTx, SendFinalizeBlock and SendCommit call every backend, reachable or not.
- The event bus, the indexer and `fireEvents` (client.go:193-210, 1329-1380) are not modelled: they only publish. So are the constructor's panics when they fail to start (client.go:218-228).
- Engine.AbciClient.RunBlockWithTimeAndProposer: the block time comes from the library's `blockTime`. The source's `blockTime` argument is unused (client.go:924-929), and so it is here.
- Proposal signing (client.go:590-614) is not modelled. Its result is only logged, and the round uses the block alone.
- RoundSteps.VerifyVoteExtensions: sorts a copy of the validators, not the engine's state. The source sorts the current set in place; see Findings. Go's `sort.Slice` is not stable, and which of two validators whose backends share a network address comes first is not modelled.
- Go map iteration order: the misbehaving validators are a sequence, and the evidence follows its order.
- Library failures that the engine only passes on are outside the model. The block ID and part set (client.go:681, 839-842), the deep copy (client.go:760-763) and the vote conversion are taken to be total. Vote-set insertion (client.go:1109-1131) is folded into `makeExtendedCommit`.
- Misbehaviour.ConstructDuplicateVoteEvidence: the signatures of the two votes are the library's `signVote`. A validator missing from the engine's key map is not modelled.
- Round.ExtendAndSignVote, Round.CreateProposalBlock: decode the backend's hex address text. The source converts the text with `[]byte(...)`; see Findings.
- Round.EvidenceFor: both duplicate votes get the same clock reading. The source reads the clock once per vote (client.go:700, 712), and Misbehaviour.ConstructDuplicateVoteEvidence takes the two readings as separate inputs.
- `GetSigningStatusMap` (client.go:155-165) is not modelled. It returns a copy of the map, which is the map's value here.
- `GetTimeOffset` (client.go:85-87) reads the field and carries no contract.
- `SyncApp`, `SendAbciInfo`, `SendInitChain`, `CreateInitChainRequest`, `UpdateStateFromInit` and `SendAbciQuery` (client.go:272-278, 337-458, 522-553) are not modelled: they are start-up and query plumbing outside the round.
- The CheckTx response code is returned but not checked, here as in the source (client.go:950-956).
- Engine.AbciClient.RunEmptyBlocks: every round uses the same `now`. The clock does not advance between rounds.
- The routes that only forward to the engine (routes.go:38-103) are not modelled. These are the broadcast routes, which call RunBlock, and ABCIQuery.
- Routes.ValidatePage: the source panics for a page size below 1. This is a precondition here, and ValidatePerPage never produces such a size.

## Findings

| source | as written | input that shows it | evidently intended | confidence | as-written member | corrected member |
|---|---|---|---|---|---|---|
| cometmock/abci_client/client.go:95 | the offset is increased by int64 addition, which wraps around | offset 9223372036854775807 ns, increment 1 ns: the offset becomes -9223372036854775808 | an increment never makes the offset smaller; an overflowing increment is refused | high, not executed | Engine.IncrementedOffsetAsWritten, Engine.AsWrittenOffsetCanDecrease | Engine.IncrementedOffset |
| cometmock/abci_client/client.go:874-875 | the signer is given a protobuf copy of the vote (`vote.ToProto()`), and the vote returned is the original, unsigned | any precommit of a signing validator for which the signer produces a non-empty signature: the returned vote's signature is empty | the returned vote carries the signature, as the proposal does at client.go:599-600 | medium, not executed | Round.ExtendAndSignVoteAsWritten, Round.AsWrittenVoteLosesSignature | Round.ExtendAndSignVote |
| cometmock/abci_client/client.go:836-846 | the vote's address is `bytes.HexBytes(app.ValidatorAddress)` and its index is looked up with `[]byte(addr)`: both are the UTF-8 bytes of the backend's address text, while the backends are keyed by the validator's hex text (client.go:147, 1043) | a validator with a 20-byte address whose backend is keyed by its 40-character hex text: the vote's address is 40 bytes, its index is -1, and the vote fails basic validation; its hex text differs from the backend's key, so line 1081 asks the validator to verify its own extension | the vote names the validator's own address and its index in the current set | medium, not executed | Round.ExtendAndSignVoteAsWritten, Round.AsWrittenVoteHasNoIndex | Round.ExtendAndSignVote, Round.Ballot |
| cometmock/abci_client/client.go:632 | the proposer address of the draft block is `[]byte(proposerApp.ValidatorAddress)`, the UTF-8 bytes of the hex text | any non-empty address whose backend is keyed by its hex text: the header's proposer address has twice the address's length, and its hex text is not the backend's key | the header names the proposer's raw address | medium, not executed | Addresses.HexTextBytesDiffer | Round.CreateProposalBlock |
| cometmock/abci_client/client.go:1060-1072 | `curVals` is the engine's own validator slice, and `sort.Slice` reorders it in place by the backends' network addresses | validators with addresses 01 and 02 whose backends are at "b:1" and "a:1": after the round the current set reads [02, 01], while the votes already carry the indices of [01, 02] | extension verification visits the validators in network-address order without changing the current validator set | medium, not executed | Round.ExtensionChecksStateAsWritten, Round.AsWrittenSortMisplacesVotes | RoundSteps.VerifyVoteExtensions |
