# Hashgraph request machinery, modelled in Dafny

This project models the layer of the Hashgraph .NET client that sits under
every public API call. That layer covers:

- the argument guards every operation runs first;
- the conversions between library values and the network's protocol-buffer messages;
- the named configuration properties of a client context;
- the helpers that build transaction bodies and query headers;
- the retrying executor that sends every request to a gateway node;
- the `Endorsement` key-requirement value, as its tests define it.

The files are:

- `wrappers.dfy`: `Option`, which stands for C# null, and `Result`, which stands for a thrown exception.
- `text.dfy`: `char.IsWhiteSpace` and `string.IsNullOrWhiteSpace`.
- `entities.dfy`: the domain values. These are addresses, gateways, signatories, `TimeSpan`/`DateTime` as integer ticks, the `Endorsement` tree and the parameter records the guards inspect.
- `protobuf.dfy` (module `Wire`): the wire messages and the conversions of `Protobuf.cs`.
- `endorsement.dfy` (module `Endorsements`): validated construction and structural equality of endorsements.
- `require_input.dfy` (module `RequireInput`): the guards of `RequireInputParameter.cs`.
- `context.dfy` (module `Context`): the twelve context properties, one frame's store as a class, and the gateway URL check.
- `transactions.dfy` (module `Transactions`): the helpers of `Transactions.cs` and the executor.

The network is an oracle. `Network.send(n)` and `Network.probe(n)` give the
outcome of the n-th send and of the n-th receipt probe. An outcome is
answered (with the clock instant at that moment), unavailable, or any other
RPC failure. The executor records what the caller can observe in a trace:

- the sending-request notification;
- each response notification, with its try number;
- each wait, with its length in ticks.

The process-wide clock drift is the field of an `Epoch` object. Each method
with a loop (the loops over a shared `retryCount`, the dictionary filled in
place) is proved equal to a recursive specification function, and the lemmas
state the source's promises about that function. The methods that fill the
receipt and record objects (`Wire.FillReceiptProperties`,
`Wire.FillRecordProperties`) have no loop; their contracts give each field
they assign, one by one.

## Model

| member | source | states |
|---|---|---|
| Wire.ToAccountID | src/Hashgraph/Implementation/Protobuf.cs:45-53 | realm, shard and account number are copied field for field |
| Wire.FromAccountID | src/Hashgraph/Implementation/Protobuf.cs:54-57 | reading an id back gives an address that converts to the same id |
| Wire.AccountIDRoundTrip | src/Hashgraph/Implementation/Protobuf.cs:45-57 | address to AccountID and back is the identity in both directions |
| Wire.ToFileId | src/Hashgraph/Implementation/Protobuf.cs:58-66 | the account-number slot becomes the file number; realm and shard are copied |
| Wire.FromFileID | src/Hashgraph/Implementation/Protobuf.cs:68-71 | the file number goes back to the account-number slot |
| Wire.FileIDRoundTrip | src/Hashgraph/Implementation/Protobuf.cs:58-71 | address to FileID and back is the identity in both directions |
| Wire.FromTransactionId | src/Hashgraph/Implementation/Protobuf.cs:21-30 | wrapping a transaction id in a `TxId` and unwrapping it gives the id back |
| Wire.ToDuration | src/Hashgraph/Implementation/Protobuf.cs:73-79 | whole seconds of the span, the fraction dropped toward zero, for both signs |
| Wire.FromDuration | src/Hashgraph/Implementation/Protobuf.cs:80-83 | gives a whole-second span, and `ToDuration` of it is the duration it came from |
| Wire.DurationTruncates | src/Hashgraph/Implementation/Protobuf.cs:73-83 | the trip to the wire and back loses less than a second, toward zero |
| Wire.ToTimestamp | src/Hashgraph/Implementation/Protobuf.cs:85-95 | at or after the epoch, nanos lie in [0, 10^9) and are a multiple of 100; before it, they lie in (-10^9, 0] |
| Wire.FromTimestamp | src/Hashgraph/Implementation/Protobuf.cs:96-99 | a successful conversion lies in the `DateTime` range; a result outside it is the error `AddTicks` throws |
| Wire.TimestampRoundTrip | src/Hashgraph/Implementation/Protobuf.cs:85-99 | every representable `DateTime` survives the trip to a timestamp and back |
| Wire.TimestampRoundTripFromWire | src/Hashgraph/Implementation/Protobuf.cs:85-99 | a normalized, tick-precise timestamp at or after the epoch survives the trip to a `DateTime` and back |
| Wire.FromTransferList | src/Hashgraph/Implementation/Protobuf.cs:161-171 | the keys are exactly the addresses listed; each maps to the sum of its entries, zero sums kept |
| Wire.NotListedTotalsZero | src/Hashgraph/Implementation/Protobuf.cs:161-171 | an address that is never listed totals zero |
| Wire.Ed25519EntriesPositions | src/Hashgraph/Implementation/Protobuf.cs:110-121 | one entry per Ed25519 key, in list order, each being the prefix followed by the key bytes |
| Wire.Ed25519EntriesSources | src/Hashgraph/Implementation/Protobuf.cs:110-121 | every entry comes from an Ed25519 key of the list; other key cases are dropped |
| Wire.FromPublicKeyList | src/Hashgraph/Implementation/Protobuf.cs:110-121 | the loop collects exactly the prefixed Ed25519 keys, in order |
| Wire.FromPublicKey | src/Hashgraph/Implementation/Protobuf.cs:122-132 | an Ed25519 key gives one prefixed key and a key list gives its Ed25519 members; every other case is not supported |
| Wire.FillReceiptProperties | src/Hashgraph/Implementation/Protobuf.cs:172-176 | the receipt gets the transaction id and the status |
| Wire.FillRecordProperties | src/Hashgraph/Implementation/Protobuf.cs:177-185 | id, status and hash are copied; the consensus time is null exactly when the message has none; memo and fee are copied; if the time conversion throws, the later properties keep their old values |
| Endorsements.NewTypedKey | test/Hashgraph.Test/EndorsementTests.cs:143-186 | succeeds unless the type is `List` (range error on `type`) or Ed25519 bytes are unrecognized (range error on `publicKey` with the format message); the key bytes and type read back, RequiredCount is 0 and List is empty |
| Endorsements.NewKey | test/Hashgraph.Test/EndorsementTests.cs:143-153 | the one-argument constructor gives an Ed25519 single key that reads back its bytes |
| Endorsements.NewThreshold | test/Hashgraph.Test/EndorsementTests.cs:21-42 | succeeds exactly when 1 <= n <= number of children; an empty list fails on `endorsements` first, a bad count on `requiredCount`; the result has type List, RequiredCount n, the children in order and an empty PublicKey |
| Endorsements.NewList | test/Hashgraph.Test/EndorsementTests.cs:202-265 | the list constructor requires every child: RequiredCount is the number of children, and nesting is kept |
| Endorsements.EquivalentIsEquality | test/Hashgraph.Test/EndorsementTests.cs:66-88 | for valid endorsements, equal type, key, count and pairwise-equivalent children is the same as value equality, so `==`, `!=` and `Equals` agree |
| Endorsements.EquivalentOnlyIfEqual | test/Hashgraph.Test/EndorsementTests.cs:66-88 | by induction on the tree: property-wise equivalent valid endorsements are equal |
| Endorsements.EquivalentReflexive | test/Hashgraph.Test/EndorsementTests.cs:66-88 | by induction on the tree: every endorsement is equivalent to itself |
| Endorsements.ConstructionIsInjective | test/Hashgraph.Test/EndorsementTests.cs:89-142 | two successful constructions are equal exactly when their inputs are equal; a single key never equals a list |
| Endorsements.AllOfDiffersFromSomeOf | test/Hashgraph.Test/EndorsementTests.cs:114-142 | `(k1, k2)` differs from `(1, k1, k2)` |
| RequireInput.Address | src/Hashgraph/Implementation/RequireInputParameter.cs:14-21 | null throws ArgumentNullException on `address`; otherwise the argument is returned unchanged |
| RequireInput.AddressToDelete | src/Hashgraph/Implementation/RequireInputParameter.cs:22-29 | same, on `addressToDelete` |
| RequireInput.File | src/Hashgraph/Implementation/RequireInputParameter.cs:30-37 | same, on `file` |
| RequireInput.FileToDelete | src/Hashgraph/Implementation/RequireInputParameter.cs:38-47 | same, on `fileToDelete` |
| RequireInput.TransferToAddress | src/Hashgraph/Implementation/RequireInputParameter.cs:48-56 | same, on `transferToAddress` |
| RequireInput.FromAccount | src/Hashgraph/Implementation/RequireInputParameter.cs:57-65 | same, on `fromAccount` |
| RequireInput.ToAddress | src/Hashgraph/Implementation/RequireInputParameter.cs:66-73 | same, on `toAddress` |
| RequireInput.Amount | src/Hashgraph/Implementation/RequireInputParameter.cs:75-82 | every amount below 1, zero included, is out of range on `amount`; any other amount is returned unchanged |
| RequireInput.AcountNumber | src/Hashgraph/Implementation/RequireInputParameter.cs:103-111 | negatives are out of range; zero and above are returned unchanged |
| RequireInput.ShardNumber | src/Hashgraph/Implementation/RequireInputParameter.cs:112-120 | negatives are out of range; zero and above are returned unchanged |
| RequireInput.RealmNumber | src/Hashgraph/Implementation/RequireInputParameter.cs:121-128 | negatives are out of range; zero and above are returned unchanged |
| RequireInput.Url | src/Hashgraph/Implementation/RequireInputParameter.cs:129-136 | accepted exactly when present with a character that is not white space, and returned unchanged |
| RequireInput.RequiredCount | src/Hashgraph/Implementation/RequireInputParameter.cs:179-190 | below 1 and above `maxCount` fail with distinct messages; otherwise the count is returned unchanged |
| RequireInput.ImportKeys | src/Hashgraph/Implementation/RequireInputParameter.cs:138-177 | an empty array fails; otherwise the result has one imported key per input, in order, or the first failing import's message as ArgumentOutOfRange |
| RequireInput.PublicKeys | src/Hashgraph/Implementation/RequireInputParameter.cs:138-157 | the same for public keys, on `publicKeys` |
| RequireInput.PrivateKeys | src/Hashgraph/Implementation/RequireInputParameter.cs:158-177 | the same for private keys, on `privateKeys` |
| RequireInput.CreateAccountParameters | src/Hashgraph/Implementation/RequireInputParameter.cs:192-211 | null argument, then an empty public key, then a key that does not import, each with its own exception; otherwise the same object |
| RequireInput.CreateFileParameters | src/Hashgraph/Implementation/RequireInputParameter.cs:212-223 | null argument, then missing endorsements; otherwise the same object |
| RequireInput.UpdateAccountParameters | src/Hashgraph/Implementation/RequireInputParameter.cs:83-102 | checks in order: null argument, null Account, all five update fields null (ArgumentException on `updateParameters`); otherwise the same object |
| RequireInput.UpdateAccountParametersAsWritten | src/Hashgraph/Implementation/RequireInputParameter.cs:83-102 | the guard with the source's argument order: it accepts and rejects exactly the same inputs |
| RequireInput.BlankAccountUpdateNamesWrongParameter | src/Hashgraph/Implementation/RequireInputParameter.cs:99 | as written, a blank account update's exception has the sentence as its parameter name and `updateParameters` as its message |
| RequireInput.UpdateFileParameters | src/Hashgraph/Implementation/RequireInputParameter.cs:225-242 | checks in order: null argument, null File, Endorsements, Expiration and Contents all null; otherwise the same object |
| RequireInput.UpdateFileParametersAsWritten | src/Hashgraph/Implementation/RequireInputParameter.cs:225-242 | the guard with the source's argument order: it accepts and rejects exactly the same inputs |
| RequireInput.BlankFileUpdateNamesWrongParameter | src/Hashgraph/Implementation/RequireInputParameter.cs:239 | as written, a blank file update's exception names the wrong parameter |
| RequireInput.AppendParameters | src/Hashgraph/Implementation/RequireInputParameter.cs:244-255 | only the argument and its File are checked; otherwise the same object |
| Context.ValidNamesAreExactlyPropertyNames | src/Hashgraph/Implementation/GossipContextStack.cs:29-49 | a name is valid exactly when it is the name of one of the twelve properties |
| Context.NamesAreDistinct | src/Hashgraph/Implementation/GossipContextStack.cs:15-26 | different properties are stored under different names |
| Context.PropertiesAreIndependent | src/Hashgraph/Implementation/GossipContextStack.cs:15-26 | writing one property leaves every other property's value as it was |
| Context.GossipContextStack.constructor | src/Hashgraph/Implementation/GossipContextStack.cs:28 | a new frame stores nothing, and every typed getter reads null or its type's default |
| Context.GossipContextStack.Set | src/Hashgraph/Implementation/GossipContextStack.cs:15-26 | the setter stores the value under the property's own, valid name; the property reads it back, its typed getter returns the value (or null or the default when it is cleared), and no other property or getter changes |
| Context.SettingsReadTyped | src/Hashgraph/Implementation/GossipContextStack.cs:15-26 | each typed getter returns the stored entry when it has the property's type, and null or the type's default otherwise |
| Context.SettingOneProperty | src/Hashgraph/Implementation/GossipContextStack.cs:15-26 | setting one property changes what its own getter returns and no other getter's result |
| Context.GossipContextStack.SnapshotOfValidFrame | src/Hashgraph/Implementation/GossipContextStack.cs:15-26 | in a valid frame every set property reads back through its getter exactly as stored, and every unset one as null or its type's default |
| Context.GossipContextStack.ValidGetFits | src/Hashgraph/Implementation/GossipContextStack.cs:15-26 | every property of a valid frame reads back a value of its own type |
| Context.GetChannelUrl | src/Hashgraph/Implementation/GossipContextStack.cs:50-58 | the gateway's URL when it has a character that is not white space; otherwise InvalidOperationException with the not-configured message |
| Transactions.PresentElements | src/Hashgraph/Implementation/Transactions.cs:19-37 | skipping nulls keeps exactly the present values |
| Transactions.GatherSignatories | src/Hashgraph/Implementation/Transactions.cs:19-37 | the loop builds the list that `Gathered` describes |
| Transactions.GatheredOrder | src/Hashgraph/Implementation/Transactions.cs:19-37 | the context signatory leads, then the non-null extras in order; exactly one survivor is returned unwrapped, any other number (none included) becomes a composite |
| Transactions.GatheredKeepsDuplicates | src/Hashgraph/Implementation/Transactions.cs:19-37 | the array handed to the composite signatory keeps the same signatory twice when given twice; nulls leave no trace; no signatory gives an empty array |
| Transactions.GetOrCreateTransactionID | src/Hashgraph/Implementation/Transactions.cs:38-58 | a pinned id is used as it is; otherwise a payer is required, and the new id is paid by that payer and valid from the given instant |
| Transactions.PinnedTransactionIdRoundTrip | src/Hashgraph/Implementation/Transactions.cs:38-58 | a pinned id comes back exactly as it was pinned |
| Transactions.ToUnsigned64 | src/Hashgraph/Implementation/Transactions.cs:87-97 | the `ulong` cast of the fee limit: non-negatives unchanged, negatives wrapped by 2^64 |
| Transactions.CreateTransactionBody | src/Hashgraph/Implementation/Transactions.cs:87-97 | needs a gateway; carries the id, the gateway's account, the fee limit as unsigned, the duration in whole seconds, and the memo or "" when there is none |
| Transactions.CreateAskCostHeader | src/Hashgraph/Implementation/Transactions.cs:98-105 | an empty payment and the cost-answer response type |
| Transactions.CreateCryptoTransferList | src/Hashgraph/Implementation/Transactions.cs:59-86 | the dictionary loop and the listing loop build exactly `NetTransfers` |
| Transactions.FirstSeenElements | src/Hashgraph/Implementation/Transactions.cs:59-86 | the dictionary's keys are exactly the requested addresses |
| Transactions.FirstSeenDistinct | src/Hashgraph/Implementation/Transactions.cs:59-86 | the dictionary holds each address once |
| Transactions.NonZeroNetsEntries | src/Hashgraph/Implementation/Transactions.cs:75-85 | each listed entry carries its address's nonzero net, and every nonzero net is listed |
| Transactions.NonZeroNetsDistinct | src/Hashgraph/Implementation/Transactions.cs:75-85 | listing distinct addresses gives distinct entries |
| Transactions.NetTransfersAreNetted | src/Hashgraph/Implementation/Transactions.cs:59-86 | each address appears at most once, with the sum of its requests; an address is listed exactly when that sum is nonzero |
| Transactions.SumNetsIsTotal | src/Hashgraph/Implementation/Transactions.cs:59-86 | the nets over all addresses add up to the requested total |
| Transactions.NonZeroNetsSum | src/Hashgraph/Implementation/Transactions.cs:75-85 | dropping zero nets does not change the sum |
| Transactions.NetTransfersPreserveTotal | src/Hashgraph/Implementation/Transactions.cs:59-86 | the listed amounts sum to the sum of the requested amounts |
| Transactions.NetTransfersReadBack | src/Hashgraph/Implementation/Transactions.cs:59-86 | reading the list back with `FromTransferList`'s summation gives every listed address its net |
| Transactions.QueryPaymentTransfers | src/Hashgraph/Implementation/Transactions.cs:120 | when the payer is the gateway, or the fee is 0, the payment transfers nothing; otherwise the payer is debited and the gateway credited, in that order |
| Transactions.CreateAndSignQueryHeader | src/Hashgraph/Implementation/Transactions.cs:106-126 | gateway, payer and signatory are required in that order; the header carries the body with the netted payment, the context signatory and the answer-only response type |
| Transactions.TryAgreesWithoutRejectedStart | src/Hashgraph/Implementation/Transactions.cs:143-176 | when no start time is rejected, one try runs the same under the unsigned predicate and under a signed one that does not track drift |
| Transactions.RetryLoopAgreesWithoutRejectedStart | src/Hashgraph/Implementation/Transactions.cs:143-176 | from any state, the send loop under the two predicates gives the same result, sends, probes, drift and trace on a network that never rejects the start time |
| Transactions.PoliciesAgreeWithoutRejectedStart | src/Hashgraph/Implementation/Transactions.cs:143-176 | a whole execution is the same under both predicates unless a send or probe is answered with InvalidTransactionStart; a missing header reads as Unknown under both |
| Transactions.RetryLoopSends | src/Hashgraph/Implementation/Transactions.cs:189-227 | the send loop always ends after at least one more send |
| Transactions.RejectedStartSeparatesPolicies | src/Hashgraph/Implementation/Transactions.cs:143-176 | a first answer of InvalidTransactionStart is returned by the unsigned predicate after one send, while a signed one sends at least twice |
| Transactions.ProbeLoop | src/Hashgraph/Implementation/Transactions.cs:246-265 | the probe advances the shared retry count; it ends with a receipt or a failure before the maximum, or when the count reaches it |
| Transactions.Try | src/Hashgraph/Implementation/Transactions.cs:189-224 | one try makes exactly one send, and going on to the next try strictly advances the retry count |
| Transactions.AfterProbe | src/Hashgraph/Implementation/Transactions.cs:213-223 | after a probe, going on advances the retry count by one and stopping leaves it as it is |
| Transactions.Epoch.AddToClockDrift | src/Hashgraph/Implementation/Transactions.cs:171 | the drift grows by the given amount |
| Transactions.ShouldRetryRequest | src/Hashgraph/Implementation/Transactions.cs:166-176 | the signed or unsigned predicate, and its addition to the clock drift |
| Transactions.CheckForReceipt | src/Hashgraph/Implementation/Transactions.cs:229-266 | the probe loop over the shared retry count computes `ProbeLoop` |
| Transactions.TryOnce | src/Hashgraph/Implementation/Transactions.cs:191-223 | one pass of the send loop body computes `Try`, and the drift object holds the new drift |
| Transactions.ExecuteNetworkRequestWithRetry | src/Hashgraph/Implementation/Transactions.cs:178-276 | the executor's result, sends, probes and trace are those of `Execute`, and the drift object holds its final drift |
| Transactions.RetryLoopBounds | src/Hashgraph/Implementation/Transactions.cs:189-227 | from any try, at most one send per remaining try plus the final send, and at most one probe per remaining try |
| Transactions.SendsAreBounded | src/Hashgraph/Implementation/Transactions.cs:189-227 | the request is sent at most maxRetries + 1 times and the receipt probed at most maxRetries times |
| Transactions.RetriedTraceEntries | src/Hashgraph/Implementation/Transactions.cs:189-224 | each retried try is reported with its own try number and followed by the wait `retryDelay * (try + 1)` |
| Transactions.AcceptedAfterRetries | src/Hashgraph/Implementation/Transactions.cs:189-224 | while sends are answered, the first response the predicate accepts is returned after exactly that many sends, with the rejected ones and their waits in order |
| Transactions.FirstAcceptedIsReturned | src/Hashgraph/Implementation/Transactions.cs:189-224 | the same for a whole execution: the first accepted response, k + 1 sends, no probes, and the drift the rejected responses added |
| Transactions.RetriesUsedUp | src/Hashgraph/Implementation/Transactions.cs:189-227 | when every try is rejected, one final send follows and its response is returned whatever it is, with try number maxRetries |
| Transactions.ExhaustedRetriesEndWithFinalSend | src/Hashgraph/Implementation/Transactions.cs:225-275 | the same for a whole execution; a final send that fails is a precheck failure with status Unknown |
| Transactions.UnavailableProbesEntries | src/Hashgraph/Implementation/Transactions.cs:254-262 | each unanswered probe is reported at its try number and followed by the wait `retryDelay * (try + 1)` |
| Transactions.ProbesUseUpRetries | src/Hashgraph/Implementation/Transactions.cs:246-265 | every unanswered probe uses up one try of the shared retry count, and the probe ends exhausted at the maximum |
| Transactions.UnreachableTransactionReturnsUnknown | src/Hashgraph/Implementation/Transactions.cs:200-265 | an unreachable transaction waits `retryDelay * 0`, uses up every try on probes and returns the synthetic Unknown answer without a second send |
| Transactions.ReceiptReturnedWithoutResend | src/Hashgraph/Implementation/Transactions.cs:210-220 | a probed receipt that is neither ReceiptNotFound nor retryable is returned without resending |
| Transactions.RetryLoopFailures | src/Hashgraph/Implementation/Transactions.cs:268-275 | every failure of the send loop is a PrecheckException with status Unknown |
| Transactions.ExecutionFailures | src/Hashgraph/Implementation/Transactions.cs:178-276 | an execution fails either because no gateway is configured (exactly then with the InvalidOperationException) or with the precheck failure for an RPC error |
| Transactions.RpcErrorEndsRetryLoop | src/Hashgraph/Implementation/Transactions.cs:189-275 | after retried answers, an RPC error other than unavailability at try k, from the send or from the receipt probe that follows an unavailable send, fails with PrecheckException(Unknown) after exactly k + 1 sends and nothing is sent afterwards |
| Transactions.RpcErrorEndsExecution | src/Hashgraph/Implementation/Transactions.cs:178-276 | over a whole execution, the same: such an RPC error at try k ends the request as PrecheckException(Unknown) with k + 1 sends and at most one probe |
| Transactions.RetryLoopKeepsDrift | src/Hashgraph/Implementation/Transactions.cs:143-176 | a predicate that does not track drift never changes it |
| Transactions.UnsignedAsk | src/Hashgraph/Implementation/Transactions.cs:133-147 | succeeds exactly when the executor's answer has precheck code Ok; any other code fails as a precheck exception carrying that code, a missing header as Unknown; an executor failure is passed on unchanged |
| Transactions.ExecuteUnsignedAskRequestWithRetry | src/Hashgraph/Implementation/Transactions.cs:133-147 | computes `UnsignedAsk` and leaves the clock drift unchanged |
| Transactions.SignedPolicy | src/Hashgraph/Implementation/Transactions.cs:159-162 | drift is tracked exactly when the context asks for it and no transaction is pinned, from the instant read before the first send |
| Transactions.SignedDriftOnlyWhenTracking | src/Hashgraph/Implementation/Transactions.cs:159-177 | without tracking, a signed request never changes the drift |
| Transactions.RejectedStartAddsDrift | src/Hashgraph/Implementation/Transactions.cs:166-176 | a rejected start time, then an accepted answer, adds exactly the time the rejection arrived after the start |
| Transactions.ExecuteSignedRequestWithRetry | src/Hashgraph/Implementation/Transactions.cs:149-177 | runs the executor with the signed predicate built from the context |
| Transactions.NotifyHandlers | src/Hashgraph/Implementation/Transactions.cs:278-322 | every non-null handler is called once, in order, with the event |

## Left out

- The gRPC channel, the service clients and the text of the "unable to communicate" messages are not modelled. A send or probe is an outcome of the network oracle, and an unavailable node is reported to the response handlers as `UnavailableNotice`.
- `Task.Delay`, async/await and cancellation are not modelled. Waits appear in the trace as `Waited(ticks)`.
- The drift is one integer field. Its atomicity across threads is not modelled.
- Clock reads are parameters. A fresh transaction id takes its valid-start instant as an argument. The drift predicate takes the instant of each answer as carried by the oracle, and the signed request takes its starting instant as `clockNow`.
- The `ContextStack` base class is not part of this model. That covers the chain of parent frames, how `get`, `set` and `GetAll` walk it, and the channel cache. `GossipContextStack` models one frame's own store. Handler fan-out takes the already-collected handlers.
- `RequireInContext` is not part of this model. `ContextError` records only which required value was missing, and the error text is not modelled.
- Transactions.CreateAndSignQueryHeader: the query fee is taken after its own checks, and signing is not modelled. The header holds the body together with the signatory that would sign it.
- Key import and signing belong to a cryptography library. Import is a function parameter from bytes to a key or an error message. Whether bytes are a well-formed Ed25519 key is the parameter `isEd25519`.
- The byte encoding of protocol-buffer messages is not modelled. That covers `ToByteArray` and `ParseFrom`, the serialized `TxId`, and the re-parse of the transaction body in `CheckForReceipt`. A `TxId` holds the message itself.
- Wire.FromAccountID, Wire.FromFileID: the `Address` constructor is not part of this model. Both assume it accepts any three numbers and never throws.
- `ToShardID`, `ToRealmID`, `ToPublicKeys`, `ToPublicKeyList`, `FromAccountInfo` and `FromFileInfo` in Protobuf.cs are not part of this model.
- Wire.ToTimestamp: `(long)TotalSeconds` goes through a `double` in the source, and the model divides the integer ticks exactly. For an instant after mid-1998 with an odd tick count, the `double` can round the seconds up, and the source then produces nanos as low as -100. For example, one tick before 2026-01-01T00:00:00Z gives (1767225600, -100). The ensures that nanos lie in [0, 10^9) holds for the exact division, not for those inputs.
- Wire.ToDuration: the seconds go through the same `double`. For spans too long for a `double` to hold their tick count exactly, the source can round the seconds up where the model truncates.
- Transactions.CreateCryptoTransferList, Wire.FromTransferList: the per-address sums are exact integers. The source adds in `long` and wraps around on overflow.
- Wire.FromTimestamp: `Seconds * TicksPerSecond` is exact in the model. The source computes it in `long`, where it wraps for very large seconds before `AddTicks` checks the range.
- Wire.FromDuration: the whole-second span is exact in the model. The source's `TimeSpan.FromSeconds` throws for seconds beyond the `TimeSpan` range.
- Wire.FromPublicKeyList, Wire.FromPublicKey: the `Endorsements` constructor is not part of this model. In the source it imports each key and may reject the list, an empty one included. The model always succeeds with the collected key bytes.
- `TimeSpan` multiplication in the backoff is exact integer multiplication. The overflow `TimeSpan` raises for huge delays is not modelled.
- Transactions.ToUnsigned64 and the guards use unbounded integers. The 64-bit range of `long` is a precondition only where a cast depends on it, in `CreateTransactionBody`.
- Transactions.CreateCryptoTransferList lists addresses in the order they first appear. That is the enumeration order of a `Dictionary` that is only ever added to, which .NET does not document as a guarantee.
- Transactions.Try: a receipt read by the probe is taken to be of the request's response type. That holds for transactions, the only requests that are probed.
- Endorsements.NewThreshold: the `Endorsement` class itself is not part of this model. Its validation is taken from its tests. A count of 0 fails on `requiredCount` with the message `RequireInputParameter.RequiredCount` uses for counts below 1, an inference that no test pins down.
- Endorsements.NewTypedKey: key bytes are checked only for the Ed25519 type. The tests build RSA3072 and ECDSA384 endorsements from Ed25519 key bytes. The tests pin the exception type and message of an unrecognized key but not its parameter name; the model names it `publicKey`, which the tests do not confirm.
- Transactions.GatherSignatories: the `Signatory` constructor is not part of this model. `Composite` records the array passed to it, so whether the constructor flattens nested composites or drops repeats is not captured.
- Text.IsWhiteSpace lists the characters `char.IsWhiteSpace` accepts. No other Unicode processing is modelled.

## Findings

| source | as written | input that shows it | evidently intended | confidence | as-written member | corrected member |
|---|---|---|---|---|---|---|
| src/Hashgraph/Implementation/RequireInputParameter.cs:99 | `new ArgumentException(nameof(updateParameters), "The Account Updates contains no update properties, it is blank.")` passes the parameter name as the message and the sentence as the parameter name | an account update with Account set and all five update fields null | message first, parameter name `updateParameters` second, as `ArgumentException(string message, string paramName)` takes them | high, not executed | RequireInput.UpdateAccountParametersAsWritten, RequireInput.BlankAccountUpdateNamesWrongParameter | RequireInput.UpdateAccountParameters |
| src/Hashgraph/Implementation/RequireInputParameter.cs:239 | the same swap for a blank file update | a file update with File set and Endorsements, Expiration and Contents null | message first, parameter name `updateParameters` second | high, not executed | RequireInput.UpdateFileParametersAsWritten, RequireInput.BlankFileUpdateNamesWrongParameter | RequireInput.UpdateFileParameters |
