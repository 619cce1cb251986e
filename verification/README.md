# Verified models of the Arch wallet's core logic

A Dafny 4.11 project that models the parts of the Arch wallet browser extension
(and of the two packages it shares code with) whose correctness is hardest to see
by reading: an address codec, a session protocol shared by several documents, coin
selection and fee arithmetic, rate limiting, an MRU list, parsers and printers, the
life of a dapp request, the encrypted keystore and the migration of stored state.
`dafny verify dfyconfig.toml` checks everything.

Code that updates state or runs a loop is a class or a method with a loop, proved
against a function of its inputs or of the old state; what the code is for is then
proved about that function, over every input, every run or every reachable state.
Asynchronous code is a state machine with one step per await, in any interleaving.

| file | models |
|---|---|
| `Bits.dfy`, `Checksum.dfy`, `AddressNetwork.dfy`, `PublishedAddresses.dfy` | Bech32m (BIP-350) as in `addressNetwork.ts`, and the re-encoding of taproot addresses |
| `SessionMemory.dfy`, `SessionProtocol.dfy`, `SessionRuns.dfy`, `SessionEnds.dfy`, `SessionGates.dfy`, `SessionCleanup.dfy` | `SessionManager.ts`: any number of extension documents sharing one key pair and one snapshot |
| `Utxos.dfy`, `PlainSend.dfy`, `InscriptionSend.dfy` | `btc-protection.ts`, `btc-psbt.ts`, `inscription-coin-select.ts` |
| `HubRateLimit.dfy` | `hub-rate-limit.ts`: cooldowns per bucket, with responses in flight |
| `RecentRecipients.dfy`, `StateMigration.dfy`, `MigratedValues.dfy` | `wallet-store.ts`: the recent recipients and the on-read migrations |
| `WitnessStack.dfy`, `ByteText.dfy`, `WalletSignature.dfy` | `bip322-witness.ts` and the writer in `signer-adapter.ts` |
| `Amounts.dfy` | the three decimal printers and the ARCH parser |
| `DisplayHash.dfy`, `DisplayTexts.dfy` | the canonical JSON text behind `computeDisplayHash` |
| `RequestParts.dfy`, `DappRequests.dfy`, `RequestStore.dfy` | `background.ts`, `content.ts`, `pending-requests.ts` |
| `Keystore.dfy`, `KeystoreRuns.dfy` | `keystore.ts`, with ideal cryptography |
| `Options.dfy`, `Strings.dfy` | helpers |

## What the code does that its comments do not say

Each is proved: the exact condition under which the code does what one would expect
and, where one is named, a concrete input or run on which it does not.

- `decode` lower-cases first, so case makes no difference at all
  (`AddressNetwork.DecodeIgnoresCase`) and an address in mixed case is accepted
  (`MixedCaseAccepted`), which BIP-173, section "Bech32", forbids.
- `reEncodeTaprootAddress` looks at the first four characters only. The way there and
  back restores an address if and only if its last '1' is at index 2
  (`AddressNetwork.ReEncodeRoundTrip`); "tb1px..." loses the rest of its human-readable
  part (`LongerPrefixIsLost`).
- Joining a pending `open` or `ensureClient` gives the key of the account that call was
  made for: the caller's own if and only if both asked for the same account
  (`SessionProtocol.OpenServes`, `EnsureServes`; a run:
  `SessionRuns.JoinedEnsureServesAnotherAccount`). `getClient("")` reads as "any account"
  (`SessionProtocol.GetClientServes`), and so does `ensureClient("")` while the realm
  serves one (`SessionGates.EnsureAnswers`).
- Two `open`s of one document can register two keys side by side, which the gate is there
  to prevent: one that has to close another account's session first does not look at the
  gate again. It can happen if and only if an `open` did begin so and has yet to pass the
  gate, or one is past it that it does not name (`SessionGates.OneOpenAtATime`); while
  none has to close first there is at most one (`GateKeepsOne`; a run: `TwoOpensRegister`).
- A completed `close()` is final if and only if no call of the realm was under way that
  could still hold a key: an `open` up to its registration, or an `ensureClient` that has
  not read the snapshot yet or has read one that is live and still names the key on disk
  (`SessionRuns.CloseIsFinal`; a run: `OpenFinishesAfterClose`).
- A realm's session can be ended by another realm, a stale `ensureClient` there included:
  that one removes whatever snapshot is there by then. A held session lasts exactly until
  its realm is told of such a removal while the snapshot named its key
  (`SessionEnds.HeldSessionLasts`), and it can be ended if and only if it is published or
  about to be (`SessionCanEnd`; a run: `LiveSessionDropped`).
- The fee is estimated for one input and reported for all of them. Less is paid than
  reported if and only if the inputs chosen with the estimate fall short of the amount
  and the fee for their number; more, if and only if they leave something that is too
  small to emit (`PlainSend.ReportedFeeIsPaid`; a transaction: `FeeShortfallExample`).
- An inscription send that fails for lack of sats reports as available also the value
  of the inscribed output, which it may not spend. It reports enough if and only if nothing
  protects that output and its value makes up for what the others lack
  (`InscriptionSend.ReportedHaveCanCover`; a call: `ReportedHaveExample`).
- A witness blob need not be the serialisation of its items; it is if and only if each
  of its size fields is the shortest (`WitnessStack.AcceptedIsSerialized`; a blob:
  `LongSizeFieldAccepted`).
- A bare 64-byte hex signature whose bytes read as a witness stack is treated as one
  (`WalletSignature.ExtractFromBareHex`; a family: `BareSignatureReadAsWitness`).
- The ungrouped amount printer pads a minus sign as if it were a digit
  (`Amounts.NegativeAmountsAgree`; an amount: `NegativeAmountExample`).
- A display field named `__proto__` does not reach the hash; all else does
  (`CanonicalJson.CanonicalTextDecides`, `ProtoIsLost`).
- The pending-request store holds what its sets, removals and clears give, all along a
  run, if and only if every map written back was still current; a request that a page
  waits for can be lost otherwise (`RequestStore.StoreFollowsLedger`, `AwaitedIsStored`,
  `WriteRestoresRead`; a run: `ConcurrentRequestIsLost`). They are when nothing else writes
  or clears between an operation's read and its write (`UndividedIsCurrent`).
- A realm that saves before it hears of a password change seals the state under the
  old key with the new salt, and no password opens the keystore any more
  (`KeystoreRuns.StepKeepsGood`, `StaleWriteLocksOut`; a run: `StaleWriteHappens`).
- A migration reports a change on every read when the build's own defaults do not
  pass its tests, or when deriving an address gives the empty text
  (`MigratedState.MigrationIsIdempotent`, `SecondRunIsSilent`; a build:
  `KeylessBuildReports`).
- The defaults are merged in before the retired `apiBaseUrl` and `apiKey` are looked at,
  so these become the Hub's settings only where the stored ones are null or empty, not
  where there are none (`MigratedState.LegacyAddressSurvives`, `LegacyKeySurvives`).

## Model

| member | source | states |
|---|---|---|
| Checksum.Polymod | apps/chrome-wallet/src/utils/addressNetwork.ts:6-15 | the loop computes the register function, and the register never leaves 30 bits, so the signed 32-bit operators never see a sign bit |
| Checksum.PolymodStep | apps/chrome-wallet/src/utils/addressNetwork.ts:9-13 | the inner loop over the five generator words is one register step |
| Checksum.StepLinear | apps/chrome-wallet/src/utils/addressNetwork.ts:10-13 | a step is linear over XOR in register and symbol together |
| Checksum.StepKernel | apps/chrome-wallet/src/utils/addressNetwork.ts:7-13 | the generator words are independent: only the zero register steps to zero |
| Checksum.RunInjective | apps/chrome-wallet/src/utils/addressNetwork.ts:6-15 | different registers stay different under any common input |
| Checksum.RunSixSymbols | apps/chrome-wallet/src/utils/addressNetwork.ts:25-31 | six symbols are XORed into the register that six zeros leave |
| Checksum.ChecksumUnique | apps/chrome-wallet/src/utils/addressNetwork.ts:25-31 | of all choices of six symbols exactly the one `createChecksum` computes drives the register to the Bech32m constant |
| Checksum.BurstChangesChecksum | apps/chrome-wallet/src/utils/addressNetwork.ts:6-15 | two inputs that differ only within six consecutive symbols have different checksums, whatever comes before and after |
| AddressNetwork.HrpExpandLoop | apps/chrome-wallet/src/utils/addressNetwork.ts:17-23 | the two loops give high bits, a zero and low bits of every character |
| AddressNetwork.CreateChecksumLoop | apps/chrome-wallet/src/utils/addressNetwork.ts:25-31 | the six symbols it returns complete the register to the Bech32m constant |
| AddressNetwork.EncodeLoop | apps/chrome-wallet/src/utils/addressNetwork.ts:48-53 | the loop writes the address the round trips below are about |
| AddressNetwork.DecodeLoop | apps/chrome-wallet/src/utils/addressNetwork.ts:33-46 | the loop accepts and returns exactly what the decoding function does, with all five rejections |
| AddressNetwork.DecodeMeans | apps/chrome-wallet/src/utils/addressNetwork.ts:33-46 | an accepted address ends in the checksum `encode` would write for its parts |
| AddressNetwork.DecodeEncode | apps/chrome-wallet/src/utils/addressNetwork.ts:33-53 | decoding an encoded address gives its parts back if and only if the human-readable part is non-empty and has no upper-case letter |
| AddressNetwork.EncodeDecode | apps/chrome-wallet/src/utils/addressNetwork.ts:33-53 | encoding what was decoded gives the lower-cased address: the six checksum symbols are unique |
| AddressNetwork.DecodeIgnoresCase | apps/chrome-wallet/src/utils/addressNetwork.ts:33-35 | case, mixed case included, makes no difference |
| AddressNetwork.MixedCaseAccepted | apps/chrome-wallet/src/utils/addressNetwork.ts:33-35 | "Tb1..." decodes, for any data |
| AddressNetwork.BurstDetected | apps/chrome-wallet/src/utils/addressNetwork.ts:33-46 | two different addresses with the same separator that agree outside six consecutive data characters never both decode |
| AddressNetwork.CorruptedAddressUnchanged | apps/chrome-wallet/src/utils/addressNetwork.ts:60-75 | mistyping up to six consecutive data characters of a valid address by other charset characters gives a string that does not decode and is returned unchanged |
| AddressNetwork.ReEncodeIdentity | apps/chrome-wallet/src/utils/addressNetwork.ts:60-75 | the own network, a failed decode and any other prefix leave the string unchanged |
| AddressNetwork.ReEncodeRoundTrip | apps/chrome-wallet/src/utils/addressNetwork.ts:60-75 | re-encoding keeps the 5-bit data under the other prefix, and re-encoding back restores the lower-cased original if and only if the last '1' is at index 2 |
| AddressNetwork.LongerPrefixIsLost | apps/chrome-wallet/src/utils/addressNetwork.ts:60-75 | "tb1px" with any data is accepted and becomes a "bc" address |
| AddressNetwork.LowerLetters | apps/chrome-wallet/src/utils/addressNetwork.ts:34 | the 26 letters that lower-casing maps, one by one |
| PublishedAddresses.NoData | apps/chrome-wallet/src/utils/addressNetwork.ts:33-53 | BIP-350, section "Test vectors for Bech32m": the shortest valid address is what `encode` writes, and decodes in upper case too |
| PublishedAddresses.AllCharacters | apps/chrome-wallet/src/utils/addressNetwork.ts:1-53 | the vector of that section with every symbol once: fixes the character set, the generator words and the final register |
| PublishedAddresses.TaprootPair | apps/chrome-wallet/src/wallets/__tests__/relink.test.ts:7-10 | the two addresses of one output key in the tests decode and are re-encoded as each other |
| SessionMemory.ClampTtl | apps/chrome-wallet/src/session/SessionManager.ts:475-480 | the lifetime is between a minute and an hour, and a finite value between them is only rounded down |
| SessionMemory.SessionManager.GetClient | apps/chrome-wallet/src/session/SessionManager.ts:283-290 | the client is served exactly when there is a stamper, it is not within the slack, and the account fits or is not given |
| SessionMemory.SessionManager.Open | apps/chrome-wallet/src/session/SessionManager.ts:204-228 | new fields and next await of `open`: join, reuse, close another account's session first, or begin |
| SessionMemory.SessionManager.DoOpen | apps/chrome-wallet/src/session/SessionManager.ts:223-237 | the gate is taken when the new session starts |
| SessionMemory.SessionManager.FinishRegister | apps/chrome-wallet/src/session/SessionManager.ts:253-262 | after registration the realm holds key, account and expiry together |
| SessionMemory.SessionManager.FinishOpen | apps/chrome-wallet/src/session/SessionManager.ts:224-228 | the gate is released whatever the outcome |
| SessionMemory.SessionManager.EnsureClient | apps/chrome-wallet/src/session/SessionManager.ts:312-324 | served from memory, joined, or begun |
| SessionMemory.SessionManager.SnapshotRead | apps/chrome-wallet/src/session/SessionManager.ts:326-335 | a missing snapshot or another account's ends the call, an expired one is discarded |
| SessionMemory.SessionManager.KeyLoaded | apps/chrome-wallet/src/session/SessionManager.ts:344-369 | the snapshot is adopted only if the key on disk is the one it names |
| SessionMemory.SessionManager.FinishEnsure | apps/chrome-wallet/src/session/SessionManager.ts:319-323 | the gate is released with the result |
| SessionMemory.SessionManager.Close | apps/chrome-wallet/src/session/SessionManager.ts:390-395 | the triple is forgotten, the gates are not |
| SessionMemory.SessionManager.OnSnapshotRemoved | apps/chrome-wallet/src/session/SessionManager.ts:163-174 | the triple is forgotten exactly when the removed snapshot named this realm's key |
| SessionProtocol.StepKeepsInv | apps/chrome-wallet/src/session/SessionManager.ts:204-418 | every step of any number of realms -- each await of open, ensure and close, failed registrations, time and late storage events -- keeps the invariant that held pairs were registered |
| SessionProtocol.RunKeepsInv | apps/chrome-wallet/src/session/SessionManager.ts:204-418 | so does every run |
| SessionProtocol.HeldPairsAreRegistered | apps/chrome-wallet/src/session/SessionManager.ts:253-262 | in every reachable state each realm's (key, account) and the shared snapshot's is one Turnkey registered, with a lifetime of at most an hour, whatever other realms did to the shared key |
| SessionProtocol.GetClientServes | apps/chrome-wallet/src/session/SessionManager.ts:283-290 | `getClient(a)` yields a key of another account if and only if `a` is the empty id and the realm serves another account; never beyond the key's time |
| SessionProtocol.OpenServes | apps/chrome-wallet/src/session/SessionManager.ts:204-228 | the key `open` returns was registered for the account of the call it joined, so it is the caller's own exactly when the two asked for the same |
| SessionProtocol.EnsureServes | apps/chrome-wallet/src/session/SessionManager.ts:312-369 | the same for `ensureClient` where the id of the account asked for is not empty; without joining, a key of another account is then never returned |
| SessionRuns.OpenFinishesAfterClose | apps/chrome-wallet/src/session/SessionManager.ts:390-418 | a run in which `close()` completes and the realm serves a key afterwards |
| SessionRuns.OnlyCallsUnderWayHold | apps/chrome-wallet/src/session/SessionManager.ts:204-418 | a realm that serves nothing serves something again, in some continuation without a new call of its own, if and only if one of its calls can still hold: an `open` up to its registration, an `ensureClient` yet to read the snapshot, or one whose snapshot is its account's, live and names the key on disk |
| SessionRuns.CloseIsFinal | apps/chrome-wallet/src/session/SessionManager.ts:390-418 | from any reachable state, after a `close()` that completes the realm serves nothing until it is asked to, if and only if no such call was under way when `close()` was called |
| SessionRuns.OpenHolds | apps/chrome-wallet/src/session/SessionManager.ts:204-272 | an `open` up to its registration holds its key for its account when its awaits are answered well, whatever was closed meanwhile |
| SessionRuns.JoinedEnsureServesAnotherAccount | apps/chrome-wallet/src/session/SessionManager.ts:312-324 | a run in which `ensureClient("b")` returns the key registered for "a" |
| SessionRuns.UndisturbedOpenServes | apps/chrome-wallet/src/session/SessionManager.ts:204-272 | from any reachable state an undisturbed `open` in an idle realm registers a fresh key for the account, publishes it and serves it, and touches no other realm |
| SessionRuns.SessionIsShared | apps/chrome-wallet/src/session/SessionManager.ts:312-369 | an idle document's `ensureClient` then returns that very key |
| SessionEnds.HeldSessionLasts | apps/chrome-wallet/src/session/SessionManager.ts:163-418 | over every run in which the realm starts no call but such as are answered at once or join another: a session that it holds, with none of its calls able to replace it, is lost if and only if the realm is told of a removal that a close, a closing `open` or a stale `ensureClient` of any realm made while the snapshot named that session's key |
| SessionEnds.SessionCanEnd | apps/chrome-wallet/src/session/SessionManager.ts:163-418 | from any reachable state such a run that ends the session exists if and only if the session is published or an `open` is about to publish it |
| SessionEnds.LiveSessionDropped | apps/chrome-wallet/src/session/SessionManager.ts:326-360 | a run without any `close()` in which a stale `ensureClient` ends another realm's live session |
| SessionGates.OneOpenAtATime | apps/chrome-wallet/src/session/SessionManager.ts:133-228 | from any reachable state, without a further `open` that begins by closing another account's session, two `open`s of a realm can come to be past the gate at once if and only if one that began so has yet to pass it or one is past it that it does not name |
| SessionGates.GateKeepsOne | apps/chrome-wallet/src/session/SessionManager.ts:133-137 | in every run in which no `open` of a realm has to close another account's session first, at most one of the realm's is past the gate |
| SessionGates.TwoOpensRegister | apps/chrome-wallet/src/session/SessionManager.ts:204-228 | a run in which two `open`s of one realm and one account each register a key |
| SessionGates.EnsureAnswers | apps/chrome-wallet/src/session/SessionManager.ts:312-369 | for every account id, the empty one included, and every run: served from memory it is the realm's key, of its own account unless the id is empty; a joiner returns what the joined call does; a call that reads the snapshot returns a key of exactly its account |
| SessionCleanup.RefusedOpenCleans | apps/chrome-wallet/src/session/SessionManager.ts:245-259 | a refused registration leaves the gate released, no session and nothing on disk if clearing succeeds; whatever the realms share is otherwise as before |
| SessionCleanup.CloseClears | apps/chrome-wallet/src/session/SessionManager.ts:390-418 | a `close()` from start to end, for every realm and every snapshot: fields, snapshot and key on disk are gone, the removal is announced, and all else stays |
| SessionCleanup.OpenClosesFirst | apps/chrome-wallet/src/session/SessionManager.ts:219-228 | an `open` that finds another account's session does the same first and then passes the gate |
| SessionCleanup.OpenAnswers | apps/chrome-wallet/src/session/SessionManager.ts:204-228 | what `open` does at once, in each of its four cases: joined, reused with more than half a minute left, foreign, begun |
| SessionCleanup.Lifetimes | apps/chrome-wallet/src/session/SessionManager.ts:475-480 | the lifetimes in seconds: 60, 3600 and what is between, rounded down |
| SessionCleanup.ServedUntil | apps/chrome-wallet/src/session/SessionManager.ts:283-290 | after an undisturbed `open` the key is served until 30 seconds before the end of its lifetime and not after |
| SessionCleanup.SnapshotDecides | apps/chrome-wallet/src/session/SessionManager.ts:326-335 | what a read snapshot leads to: none or foreign, live, expired |
| SessionCleanup.DiskDecides | apps/chrome-wallet/src/session/SessionManager.ts:344-369 | the session is adopted, all fields of it, exactly when the key on disk is the snapshot's; a key minted by looking is not |
| SessionCleanup.DiscardRemoves | apps/chrome-wallet/src/session/SessionManager.ts:331-360 | discarding removes the snapshot that is there and ends without a session |
| Utxos.NonZeroRuneCount | apps/chrome-wallet/src/utils/btc-protection.ts:41-63 | the count is positive exactly when some rune amount is positive or unreadable |
| Utxos.IsProtectedUtxo | apps/chrome-wallet/src/utils/btc-protection.ts:65-71 | decides protection by inscriptions, runes and risky runes |
| Utxos.PartitionByProtection | apps/chrome-wallet/src/utils/btc-protection.ts:104-119 | the loop splits the outputs by protection, with the right totals |
| Utxos.PartitionIsWhole | apps/chrome-wallet/src/utils/btc-protection.ts:104-119 | the two sides together are the input, with multiplicity and value |
| Utxos.SpendableMembers | apps/chrome-wallet/src/utils/btc-protection.ts:104-119 | the spendable side holds exactly the unprotected outputs |
| Utxos.SpendableAreBare | apps/chrome-wallet/src/utils/btc-protection.ts:41-72 | an output is spendable exactly when it has no inscription and every rune entry, at risk or not, is no text or an amount that is not positive |
| Utxos.LargestAreWorthMost | apps/chrome-wallet/src/utils/btc-psbt.ts:66-75 | no k outputs are worth more than the first k of the descending list |
| Utxos.GreedyIsFewest | apps/chrome-wallet/src/utils/btc-psbt.ts:66-75 | stopping as soon as the need is reached uses as few outputs as any choice that reaches it |
| Utxos.SortIsStable | apps/chrome-wallet/src/utils/btc-psbt.ts:66-67 | outputs of the same value keep their order |
| Utxos.LargestReach | apps/chrome-wallet/src/utils/btc-psbt.ts:66-75 | the outputs taken are from the pool and reach the need exactly when the pool does |
| Utxos.LargestIsFewest | apps/chrome-wallet/src/utils/btc-psbt.ts:66-75 | they are as few as any choice that reaches the need, but at least one |
| PlainSend.TakeLargest | apps/chrome-wallet/src/utils/btc-psbt.ts:66-75 | the loop takes exactly the least number of the largest outputs that reaches the need |
| PlainSend.SelectUtxos | apps/chrome-wallet/src/utils/btc-psbt.ts:58-98 | succeeds if and only if the unprotected outputs suffice, then returns the largest of them, as few as reach the need and no more than any other choice; the error is INSUFFICIENT_SPENDABLE_BTC if and only if protected value is positive and would close the gap |
| PlainSend.BuildUnsignedPsbt | apps/chrome-wallet/src/utils/btc-psbt.ts:115-179 | succeeds exactly when the unprotected outputs cover amount and one-input estimate; then the inputs are the largest ones, as few as cover these two, and outputs, change and reported figures are fixed |
| PlainSend.FeeGrows | apps/chrome-wallet/src/utils/btc-psbt.ts:101-103 | more inputs never cost less at a rate that is not negative |
| PlainSend.SpentAreBare | apps/chrome-wallet/src/utils/btc-psbt.ts:112-165 | no input of a built transaction carries an inscription, runes or runes at risk |
| PlainSend.FeeIsRoundedUp | apps/chrome-wallet/src/utils/btc-psbt.ts:101-141 | the fee in numbers: 57.5 vbytes for each input and 96.5 for the rest, at the rate, rounded up |
| PlainSend.RateIsChosen | apps/chrome-wallet/src/utils/btc-psbt.ts:127-135 | the asked rate unless missing or zero, then the estimate, then five sats per vbyte |
| PlainSend.ValueConserved | apps/chrome-wallet/src/utils/btc-psbt.ts:137-179 | inputs = amount + change + paid fee, with one-input estimate <= paid fee <= reported fee + dust threshold |
| PlainSend.ReportedFeeIsPaid | apps/chrome-wallet/src/utils/btc-psbt.ts:137-179 | the reported fee is paid if and only if what the inputs leave is above the dust threshold or nil; less is paid if and only if the chosen outputs sum to less than the amount and the fee for their number, by at most the growth of the estimate and never with one input |
| PlainSend.FeeShortfallExample | apps/chrome-wallet/src/utils/btc-psbt.ts:137-179 | building from outputs of 5154 and 1 sats pays 154 sats and reports 212 |
| InscriptionSend.SatpointRead | apps/chrome-wallet/src/utils/inscription-coin-select.ts:79-87 | a satpoint is read as the outpoint it was written from, and a missing txid or a vout that is no natural number is refused |
| InscriptionSend.InscribedUtxoIsRight | apps/chrome-wallet/src/utils/inscription-coin-select.ts:94-122 | finds an output exactly when one is at the outpoint or carries the id, and the outpoint decides first |
| InscriptionSend.FeePoolIsSafe | apps/chrome-wallet/src/utils/inscription-coin-select.ts:133-146 | fee inputs come from exactly the unprotected outputs other than the inscribed outpoint |
| InscriptionSend.CoverFee | apps/chrome-wallet/src/utils/inscription-coin-select.ts:143-152 | the loop covers the fee whenever the pool can, with the fewest inputs |
| InscriptionSend.SelectUtxosForInscriptionSend | apps/chrome-wallet/src/utils/inscription-coin-select.ts:124-165 | not found, insufficient (exactly when the fee pool is below the fee) or a selection worth inscribed value plus fee with the fewest fee inputs |
| InscriptionSend.ReportedHaveCanCover | apps/chrome-wallet/src/utils/inscription-coin-select.ts:153-156 | with distinct outpoints, a send that fails for lack of sats reports at least what it needs if and only if nothing protects the inscribed output and its value makes up for what the fee pool lacks |
| InscriptionSend.ReportedHaveExample | apps/chrome-wallet/src/utils/inscription-coin-select.ts:124-156 | a send that needs 500 sats fails reporting 1000 |
| HubRateLimit.WindowBounds | apps/chrome-wallet/src/utils/hub-rate-limit.ts:93-101 | every jitter draw gives a window between min(60 s, max(server wait, backoff)) and 60 s |
| HubRateLimit.WindowIs | apps/chrome-wallet/src/utils/hub-rate-limit.ts:92-100 | the window in numbers: 5 seconds doubled with every 429 or what the Hub asks, up to a quarter more, one minute at most |
| HubRateLimit.TimeLeft | apps/chrome-wallet/src/utils/hub-rate-limit.ts:102-104 | the time to the end of the window, or none |
| HubRateLimit.BucketNames | apps/chrome-wallet/src/utils/hub-rate-limit.ts:73-77 | the bucket of each group: auth and recovery by path, the others by group |
| HubRateLimit.HubCooldowns.Gate | apps/chrome-wallet/src/utils/hub-rate-limit.ts:143-145 | a call is refused exactly while its bucket has time left |
| HubRateLimit.HubCooldowns.NoteRateLimited | apps/chrome-wallet/src/utils/hub-rate-limit.ts:121-130 | new map, and a wait that is always positive |
| HubRateLimit.HubCooldowns.Settle | apps/chrome-wallet/src/utils/hub-rate-limit.ts:146-150 | a response fails exactly on 429, with the time left on its bucket; what each status does to the map |
| HubRateLimit.HubCooldowns.RemainingOf | apps/chrome-wallet/src/utils/hub-rate-limit.ts:108-114 | the maximum over the group's buckets, attained, or 0 |
| HubRateLimit.BucketsOfGroup | apps/chrome-wallet/src/utils/hub-rate-limit.ts:72-75 | a request's bucket belongs to its own group and to no other, whatever its path |
| HubRateLimit.CooldownHolds | apps/chrome-wallet/src/utils/hub-rate-limit.ts:121-150 | until its end time a bucket's window and count are changed by nothing that arrives, and no call on it reaches the network |
| HubRateLimit.BucketsIndependent | apps/chrome-wallet/src/utils/hub-rate-limit.ts:121-150 | the state of a bucket after any run is that after its own events alone |
| HubRateLimit.BackoffGrows | apps/chrome-wallet/src/utils/hub-rate-limit.ts:121-130 | whatever quiet events came between, a 429 after the window's end opens the next longer one, and one before its end changes nothing |
| HubRateLimit.BackoffRestarts | apps/chrome-wallet/src/utils/hub-rate-limit.ts:148 | a success after the window's end makes the next 429 start with the first window again; a success before its end makes no difference |
| HubRateLimit.CountTakesTime | apps/chrome-wallet/src/utils/hub-rate-limit.ts:93-130 | at count n, the least windows 1 to n-1 have elapsed since the first 429 after the last reset |
| RecentRecipients.WalletStore.AddRecentRecipient | apps/chrome-wallet/src/state/wallet-store.ts:859-900 | the new list, and that a blank address changes nothing |
| RecentRecipients.DistinctKeysMeaning | apps/chrome-wallet/src/state/wallet-store.ts:859-900 | the uncapped list holds every used key once, latest use first |
| RecentRecipients.CutBeforeOrAfter | apps/chrome-wallet/src/state/wallet-store.ts:859-900 | cutting before moving a key to the front equals cutting after |
| RecentRecipients.CapLosesNothing | apps/chrome-wallet/src/state/wallet-store.ts:859-900 | the stored list is always the first 20 distinct keys of the reversed history, with no duplicate |
| RecentRecipients.LastUsedAtIsLastUse | apps/chrome-wallet/src/state/wallet-store.ts:859-900 | an entry's time is that of its key's last use |
| RecentRecipients.NewestFirst | apps/chrome-wallet/src/state/wallet-store.ts:859-900 | under a clock that never goes back the list is newest first |
| RecentRecipients.ListedSinceEntry | apps/chrome-wallet/src/state/wallet-store.ts:859-900 | a listed key was on the list all the time since it last came onto it |
| RecentRecipients.UseCountSinceEntry | apps/chrome-wallet/src/state/wallet-store.ts:859-900 | `useCount` counts exactly the uses since then |
| RecentRecipients.LabelSinceEntry | apps/chrome-wallet/src/state/wallet-store.ts:859-900 | an entry's label is the last one given since then; a use without a label keeps it |
| RecentRecipients.PaddingIgnored | apps/chrome-wallet/src/state/wallet-store.ts:859-900 | white space around an address makes no difference, and an address of nothing else is not recorded |
| RecentRecipients.ListLength | apps/chrome-wallet/src/state/wallet-store.ts:859-900 | the list holds every recipient ever used, up to twenty |
| RecentRecipients.FirstUse | apps/chrome-wallet/src/state/wallet-store.ts:859-900 | the entry that a first use makes, field by field |
| RecentRecipients.SecondUse | apps/chrome-wallet/src/state/wallet-store.ts:859-900 | two uses are of one recipient exactly when trimmed address, asset, network and mint agree |
| WitnessStack.ParseWitnessStackLoop | apps/chrome-wallet/src/utils/bip322-witness.ts:73-89 | the loop with its moving offset computes the parsing function |
| WitnessStack.ReadWritten | apps/chrome-wallet/src/utils/bip322-witness.ts:49-71 | a written size field is read back exactly when it is below 2^31 |
| WitnessStack.ParseSerialized | apps/chrome-wallet/src/utils/bip322-witness.ts:73-89 | parsing inverts the serialisation of BIP-322, section "Simple", if and only if there are 1 to 16 items, each shorter than 2^31 bytes |
| WitnessStack.AcceptedIsBlob | apps/chrome-wallet/src/utils/bip322-witness.ts:73-89 | bytes are accepted as these items if and only if they are the size fields and bodies of the items with no byte left over |
| WitnessStack.WidthIsLeast | apps/chrome-wallet/src/utils/bip322-witness.ts:49-71 | the shortest size field for a value, of those accepted, is the written one |
| WitnessStack.AcceptedIsSerialized | apps/chrome-wallet/src/utils/bip322-witness.ts:73-89 | an accepted blob is the serialisation of its items if and only if each of its size fields is the shortest for its value |
| WitnessStack.LongSizeFieldAccepted | apps/chrome-wallet/src/utils/bip322-witness.ts:49-71 | a size field longer than necessary is accepted |
| WitnessStack.SizeFields | apps/chrome-wallet/src/utils/bip322-witness.ts:49-71 | size fields written out, little-endian |
| WitnessStack.TwoItems | apps/chrome-wallet/src/utils/bip322-witness.ts:73-89 | a blob written out, and beginnings and extensions of it that are refused |
| ByteText.HexToBytesLoop | packages/arch-swap-engine/src/signer-adapter.ts:52-60 | fills the array with the bytes of the text; only an odd length is refused |
| ByteText.DecodeHexLoop | apps/chrome-wallet/src/utils/bip322-witness.ts:22-32 | fills the array with the bytes of the text; anything that is not hex is refused |
| ByteText.HexRoundTrip | apps/chrome-wallet/src/utils/bip322-witness.ts:98-104 | both readers invert the hex printer |
| ByteText.HexUnique | packages/arch-swap-engine/src/signer-adapter.ts:52-60 | printing inverts reading on lower-case hex |
| ByteText.Base64RoundTrip | apps/chrome-wallet/src/utils/bip322-witness.ts:13-20 | the base64 reader inverts the writer on every byte string |
| ByteText.HexRead | apps/chrome-wallet/src/utils/bip322-witness.ts:22-32 | hexadecimal texts read by the two readers, where they agree and where they do not |
| ByteText.OddPairs | packages/arch-swap-engine/src/signer-adapter.ts:52-60 | what is stored for pairs that are not two digits |
| ByteText.Alphabet64 | apps/chrome-wallet/src/utils/bip322-witness.ts:13-20 | the base64 alphabet |
| ByteText.Base64Texts | apps/chrome-wallet/src/utils/bip322-witness.ts:13-20 | the base64 texts of "Man" and its beginnings |
| WalletSignature.WitnessTextIsNotHex | apps/chrome-wallet/src/utils/bip322-witness.ts:34-47 | the base64 text of a signature witness is never taken for hex |
| WalletSignature.ExtractFromWitness | apps/chrome-wallet/src/utils/bip322-witness.ts:106-131 | a one-signature witness, with or without sighash byte, gives the 64 bytes |
| WalletSignature.SwapSignatureRoundTrip | packages/arch-swap-engine/src/signer-adapter.ts:62-79 | what `makeSwapSigner` writes is extracted as the wallet's own hex; exactly texts of 64 bytes are accepted |
| WalletSignature.ExtractFromBareHex | apps/chrome-wallet/src/utils/bip322-witness.ts:117-131 | a bare hex signature is extracted if and only if its bytes do not read as a stack whose first item is refused or becomes other 64 bytes |
| WalletSignature.BareSignatureReadAsWitness | apps/chrome-wallet/src/utils/bip322-witness.ts:117-131 | a signature starting with 1, 62 is refused when its other 62 bytes are |
| Decimals.PadSplits | apps/chrome-wallet/src/utils/arch-tx-summary.ts:199-204 | a padded number is its whole part followed by exactly d digits of fraction |
| Decimals.GroupsOfThree | apps/chrome-wallet/src/utils/amount-display.ts:13-16 | the commas cut the digits into threes, counted from the right |
| Decimals.StripGroupFrom | apps/chrome-wallet/src/utils/amount-display.ts:13-16 | without its commas the grouped text is the digits |
| Amounts.BaseUnitsIsPlain | apps/chrome-wallet/src/utils/amount-display.ts:18-28 | without commas `formatBaseUnits` shows sign, whole part and trimmed fraction |
| Amounts.PrintersAgree | apps/chrome-wallet/src/utils/arch-tx-summary.ts:195-206 | the three printers show the same text for every amount that is not negative |
| Amounts.NegativeAmountsAgree | apps/chrome-wallet/src/utils/arch-tx-summary.ts:195-206 | for a negative amount two printers agree if and only if there are no decimals or the amount has more digits than decimals |
| Amounts.NegativeAmountExample | apps/chrome-wallet/src/utils/arch-tx-summary.ts:195-206 | minus five hundredths is shown as "0.-5" and "-0.05" |
| Amounts.FormatBaseUnitsInjective | apps/chrome-wallet/src/utils/amount-display.ts:18-28 | no two amounts are shown alike |
| Amounts.ArchRoundTrip | apps/chrome-wallet/src/components/ConnectedSiteRow.tsx:39-67 | parsing a printed ARCH amount gives the lamports back |
| Amounts.ArchAccepts | apps/chrome-wallet/src/components/ConnectedSiteRow.tsx:52-67 | which texts are amounts: digits, and up to nine more after a point; nothing means no cap and all else is refused |
| Amounts.ShownAmounts | apps/chrome-wallet/src/utils/amount-display.ts:18-28 | amounts written out by the grouped and the ARCH printer, and the decimals that are refused |
| CanonicalJson.PrintInjective | packages/wallet-hub-sdk/src/client.ts:602-604 | JSON text determines the value |
| CanonicalJson.KeyOrder | packages/wallet-hub-sdk/src/client.ts:619-630 | the order in which an object's keys are met is a strict total order |
| CanonicalJson.SameIsCanonical | packages/wallet-hub-sdk/src/client.ts:619-630 | values are equal up to key order at every depth if and only if their reordered forms are equal |
| CanonicalJson.CanonicalTextDecides | packages/wallet-hub-sdk/src/client.ts:602-630 | two displays are hashed from the same text if and only if they are equal up to key order at every depth, `__proto__` keys aside |
| CanonicalJson.ProtoIsLost | packages/wallet-hub-sdk/src/client.ts:626 | a field `__proto__` does not reach the text |
| CanonicalJson.OrderedUnique | packages/wallet-hub-sdk/src/client.ts:626 | there is only one ordered list of given fields |
| CanonicalJson.SortedReplacer | packages/wallet-hub-sdk/src/client.ts:619-630 | the loop over sorted keys fills the copy with exactly the fields of the object but `__proto__`, in the fixed order |
| CanonicalJson.ReplacedThenVisited | packages/wallet-hub-sdk/src/client.ts:619-630 | visiting that copy's fields gives the canonical object |
| DisplayTexts.KeyPositions | packages/wallet-hub-sdk/src/client.ts:619-630 | where the keys of a printed object stand: array indices by number and first, the others by their first different code unit, a proper prefix first |
| DisplayTexts.StringText | packages/wallet-hub-sdk/src/client.ts:602-606 | how each character of a string is written |
| DisplayTexts.StringTexts | packages/wallet-hub-sdk/src/client.ts:602-606 | a string is written character by character |
| DisplayTexts.SortedText | packages/wallet-hub-sdk/src/client.ts:595-601 | {"b":2,"a":1} is hashed as the text {"a":1,"b":2} |
| DisplayTexts.ValueTexts | packages/wallet-hub-sdk/src/client.ts:602-606 | the other values written out; items keep their order |
| RequestParts.ContentScript.OnPendingReply | apps/chrome-wallet/entrypoints/content.ts:54-67 | a pending reply is remembered, a lost one is posted as a failure |
| RequestParts.ContentScript.OnToPage | apps/chrome-wallet/entrypoints/content.ts:93-105 | a response is posted and its request forgotten exactly when the request is remembered |
| RequestParts.PendingRequestsStore.Get | apps/chrome-wallet/src/messaging/pending-requests.ts:38-42 | reads one entry |
| RequestParts.PendingRequestsStore.Set | apps/chrome-wallet/src/messaging/pending-requests.ts:43-48 | sets one entry, undisturbed |
| RequestParts.PendingRequestsStore.Remove | apps/chrome-wallet/src/messaging/pending-requests.ts:49-54 | removes one entry, undisturbed |
| RequestParts.PendingRequestsStore.ClearAll | apps/chrome-wallet/src/messaging/pending-requests.ts:60-62 | nothing is left |
| DappRequests.StepKeepsInv | apps/chrome-wallet/entrypoints/background.ts:628-702 | every step of any number of handlers and documents, the store's read and write apart, keeps the invariant |
| DappRequests.RunKeepsInv | apps/chrome-wallet/entrypoints/background.ts:628-702 | so does every run |
| DappRequests.AnsweredAtMostOnce | apps/chrome-wallet/entrypoints/content.ts:47-105 | in every interleaving a request is answered at most once, by the document and to the message that asked |
| DappRequests.SuccessWasApproved | apps/chrome-wallet/entrypoints/background.ts:628-692 | a success reaches a page only if an APPROVE handler saw the request stored with that page's tab; a connection approval only a CONNECT |
| DappRequests.ApprovalArrives | apps/chrome-wallet/entrypoints/background.ts:628-692 | undisturbed, an approval reaches the waiting page with its data, and the request leaves the store |
| DappRequests.RequestBegins | apps/chrome-wallet/entrypoints/background.ts:838-918 | undisturbed, a request is stored under a new id with its page's tab and its message is remembered; when the pending reply is lost, the page gets a failure at once |
| DappRequests.ApprovalIgnored | apps/chrome-wallet/entrypoints/background.ts:640-644 | an approval of an unknown id, or of a connection under another request's id, changes nothing |
| DappRequests.RefusalArrives | apps/chrome-wallet/entrypoints/background.ts:408-415 | undisturbed, a refusal, expiry or closed window reaches the waiting page as a failure |
| RequestStore.WriteIsMeant | apps/chrome-wallet/src/messaging/pending-requests.ts:43-54 | a step does to the store what it means if and only if the map it writes back is current, its own request aside |
| RequestStore.WriteRestoresRead | apps/chrome-wallet/src/messaging/pending-requests.ts:43-54 | whatever happens between an operation's read and its write, the write drops exactly what was stored since and brings back exactly what was removed since |
| RequestStore.StoreFollowsLedger | apps/chrome-wallet/src/messaging/pending-requests.ts:16-62 | the store is what sets, removals and clears give in write order, all along a run, if and only if every write of the run is current |
| RequestStore.LedgerMembers | apps/chrome-wallet/src/messaging/pending-requests.ts:37-62 | that is: the requests set and not taken back since |
| RequestStore.RepliedWasSet | apps/chrome-wallet/entrypoints/background.ts:838-918 | a request is answered as pending only after it was set |
| RequestStore.AwaitedIsStored | apps/chrome-wallet/src/messaging/pending-requests.ts:16-62 | when every write is current, a request answered as pending is stored if and only if it was not taken back since by its approval, its refusal or a clear |
| RequestStore.UntouchedIsStored | apps/chrome-wallet/src/messaging/pending-requests.ts:16-62 | then a request that a page waits for and nobody approved, refused or cleared is stored |
| RequestStore.UndividedIsCurrent | apps/chrome-wallet/src/messaging/pending-requests.ts:43-54 | every write of a run is current when nothing else writes or clears the store between an operation's read and its write |
| RequestStore.ConcurrentRequestIsLost | apps/chrome-wallet/src/messaging/pending-requests.ts:43-48 | a run after which a page waits for a request that nobody approved, refused or cleared and the store no longer has |
| KeystoreParts.Keystore.LoadSessionKey | apps/chrome-wallet/src/crypto/keystore.ts:137-149 | the cached key, else the session copy, which is then cached |
| KeystoreParts.Keystore.SealWith | apps/chrome-wallet/src/crypto/keystore.ts:218-246 | new blob, key and legacy state, or refusal of a short password |
| KeystoreParts.Keystore.UnlockWith | apps/chrome-wallet/src/crypto/keystore.ts:252-273 | the state, or the error, and the cached key |
| KeystoreParts.Keystore.ReadState | apps/chrome-wallet/src/crypto/keystore.ts:279-300 | the state, or nothing; a stale key is dropped |
| KeystoreParts.Keystore.WriteState | apps/chrome-wallet/src/crypto/keystore.ts:306-327 | the blob re-encrypted under the loaded key, salt and iterations kept |
| KeystoreParts.Keystore.ChangePasswordTo | apps/chrome-wallet/src/crypto/keystore.ts:334-340 | unlock with the old password, then seal with the new one |
| KeystoreParts.Keystore.Lock | apps/chrome-wallet/src/crypto/keystore.ts:347-349 | both copies of the key go |
| KeystoreParts.Keystore.WipeAll | apps/chrome-wallet/src/crypto/keystore.ts:355-364 | everything goes |
| KeystoreRuns.StepKeepsGood | apps/chrome-wallet/src/crypto/keystore.ts:218-364 | every operation keeps the blob equal to the last saved state under the current password; a save does so if and only if its key is not stale |
| KeystoreRuns.RunKeepsGood | apps/chrome-wallet/src/crypto/keystore.ts:218-364 | so does every run without a stale save, of any number of realms and with announcements under way |
| KeystoreRuns.CurrentPasswordUnlocks | apps/chrome-wallet/src/crypto/keystore.ts:252-273 | then the current password, and no other, unlocks to the last saved state |
| KeystoreRuns.ReadReturnsSaved | apps/chrome-wallet/src/crypto/keystore.ts:279-300 | `read` returns that state or nothing; in a realm that is up to date exactly when the keystore is unlocked |
| KeystoreRuns.CachedKeysAreCurrent | apps/chrome-wallet/src/crypto/keystore.ts:127-170 | in a realm that is up to date the cached key is absent or current |
| KeystoreRuns.WhatUnlocks | apps/chrome-wallet/src/crypto/keystore.ts:218-364 | after each operation the keystore is unlocked exactly as said: by a seal, the current password, or as before; a lock, a wipe and a stale read lock it |
| KeystoreRuns.WipeForgets | apps/chrome-wallet/src/crypto/keystore.ts:355-364 | after a wipe no realm unlocks, reads, writes or changes anything |
| KeystoreRuns.LockKeepsBlob | apps/chrome-wallet/src/crypto/keystore.ts:347-349 | after a lock the blob is as it was and the realm reads and writes nothing |
| KeystoreRuns.SealReplaces | apps/chrome-wallet/src/crypto/keystore.ts:218-246 | a seal needs eight characters; its password and its key open what was sealed, and the old plaintext goes |
| KeystoreRuns.WriteKeepsTheRest | apps/chrome-wallet/src/crypto/keystore.ts:306-327 | when a save fails, and what of the blob it leaves |
| KeystoreRuns.ChangeOrNothing | apps/chrome-wallet/src/crypto/keystore.ts:334-340 | when a change of password fails, changing nothing, and what the new password opens otherwise |
| KeystoreRuns.PromptRunsAreGood | apps/chrome-wallet/src/crypto/keystore.ts:127-135 | with every announcement delivered before the next operation no save is stale, so all of this holds after every run |
| KeystoreRuns.StaleWriteLocksOut | apps/chrome-wallet/src/crypto/keystore.ts:306-327 | after a stale save only a password that derives the stale key from the blob's salt opens it, and none when the salt has changed |
| KeystoreRuns.StaleWriteHappens | apps/chrome-wallet/src/crypto/keystore.ts:306-340 | a run that ends in such a save |
| MigratedState.MigrateLogin | apps/chrome-wallet/src/state/wallet-store.ts:258-305 | kind, login method and the retired flag of one account, with the flag exact |
| MigratedState.MigrateIdentity | apps/chrome-wallet/src/state/wallet-store.ts:306-323 | derived and repaired addresses of one account, with the flag exact |
| MigratedState.MigrateAddresses | apps/chrome-wallet/src/state/wallet-store.ts:324-336 | linked addresses of one account, with the flag exact |
| MigratedState.MigrateAccount | apps/chrome-wallet/src/state/wallet-store.ts:258-336 | the loop body: the three parts in this order |
| MigratedState.MigrateApiConfig | apps/chrome-wallet/src/state/wallet-store.ts:156-209 | the migrated configuration, with the flag exact |
| MigratedState.MigratePreferences | apps/chrome-wallet/src/state/wallet-store.ts:340-386 | the loose settings, with the flag exact |
| MigratedState.MigrateAccounts | apps/chrome-wallet/src/state/wallet-store.ts:258-336 | the loop migrates every account in place and reports whether any changed |
| MigratedState.MigrateSites | apps/chrome-wallet/src/state/wallet-store.ts:375-381 | the loop gives exactly the sites without permissions the default ones |
| MigratedState.MigrateState | apps/chrome-wallet/src/state/wallet-store.ts:229-387 | the whole migration: new state and flag |
| MigratedState.AccountSettles | apps/chrome-wallet/src/state/wallet-store.ts:258-336 | migrating an account twice is migrating it once; the second time is reported if and only if its address derives to the empty text |
| MigratedState.MigratedAccountShape | apps/chrome-wallet/src/state/wallet-store.ts:211-336 | whatever was stored, a migrated account has a kind and a login method, an external one only "external", no retired flag, and well-formed addresses on external accounts alone |
| MigratedValues.AccountLogin | apps/chrome-wallet/src/state/wallet-store.ts:258-305 | from the stored fields alone: kind, and "external", the given method, "email" exactly for a custodial account with a recovery email, or "passkey" |
| MigratedValues.AccountIdentity | apps/chrome-wallet/src/state/wallet-store.ts:306-323 | from the stored fields alone: the address stays or is derived; the fields not mentioned stay |
| MigratedValues.AccountAddresses | apps/chrome-wallet/src/state/wallet-store.ts:324-336 | linked addresses stay on external accounts alone |
| MigratedValues.RecordIsKept | apps/chrome-wallet/src/state/wallet-store.ts:211-222 | which address records are well-formed |
| MigratedValues.RecordsAreKept | apps/chrome-wallet/src/state/wallet-store.ts:324-328 | records are kept one by one, in order |
| MigratedValues.AccountGoes | apps/chrome-wallet/src/state/wallet-store.ts:244-246 | an account goes exactly when its wallet is "magiceden" |
| MigratedValues.AccountsGo | apps/chrome-wallet/src/state/wallet-store.ts:244-246 | accounts go one by one, the others in order |
| MigratedValues.AccountsMigrated | apps/chrome-wallet/src/state/wallet-store.ts:258-336 | each account left, in its place, is the migrated one |
| MigratedValues.ActiveAccountMoves | apps/chrome-wallet/src/state/wallet-store.ts:243-256 | the active account becomes the first one left, or none, exactly when accounts went and none left has its id |
| MigratedValues.SettingsMigrated | apps/chrome-wallet/src/state/wallet-store.ts:340-386 | what each loose setting becomes, its default included |
| MigratedValues.StatusMigrated | apps/chrome-wallet/src/state/wallet-store.ts:229-230 | the settings that only get a default |
| MigratedValues.DefaultState | apps/chrome-wallet/src/state/types.ts:355-373 | the state that missing properties are taken from, value by value |
| MigratedValues.SitesGetPermissions | apps/chrome-wallet/src/state/wallet-store.ts:375-381 | sites without permissions get the default ones and nothing else of them changes |
| MigratedValues.ServicesMigrated | apps/chrome-wallet/src/state/wallet-store.ts:156-209 | the Hub's and the indexer's settings, from the stored ones |
| MigratedState.MigratedIdentity | apps/chrome-wallet/src/state/wallet-store.ts:306-323 | an external account ends with the derived address, and a replaced address is kept, the first one winning |
| MigratedState.SupportedHolds | apps/chrome-wallet/src/state/wallet-store.ts:244-247 | exactly the accounts of the discontinued wallet go |
| MigratedState.ConfigSettles | apps/chrome-wallet/src/state/wallet-store.ts:156-209 | the configuration migrates once; a second report comes exactly when neither the stored value nor the build's default passes a test |
| MigratedState.MigrationIsIdempotent | apps/chrome-wallet/src/state/wallet-store.ts:229-387 | for every partial state and every build, migrating twice is migrating once, and the second run reports a change exactly under a stated condition on the input |
| MigratedState.QuietMeansUnchanged | apps/chrome-wallet/src/state/wallet-store.ts:229-387 | with no change reported the state is the input with the defaults added |
| MigratedState.FlagIsChange | apps/chrome-wallet/src/state/wallet-store.ts:229-387 | on a state that settles the flag is exactly "something changed" |
| MigratedState.SecondRunIsSilent | apps/chrome-wallet/src/state/wallet-store.ts:156-387 | the second run is silent on every state if and only if the build's keys are non-empty and not retired, its Hub address is allowed, and derivation never gives the empty text |
| MigratedState.KeylessBuildReports | apps/chrome-wallet/src/state/wallet-store.ts:196-206 | a build without an indexer key reports a change on every read of every new state |
| MigratedState.LegacyAddressSurvives | apps/chrome-wallet/src/state/wallet-store.ts:156-184 | a retired API address becomes the Hub's if and only if it passes the tests and the Hub address, defaults included, is null or empty |
| MigratedState.LegacyKeySurvives | apps/chrome-wallet/src/state/wallet-store.ts:159-194 | the same for the retired API key |
| MigratedState.ActiveAccountExists | apps/chrome-wallet/src/state/wallet-store.ts:243-256 | the active account is moved only when accounts were removed, and one that existed is replaced by one that exists or by none |

## Left out

Simplifications in what is modelled:

- A character is a Dafny `char`, a Unicode scalar value: below U+10000 that is the source's UTF-16 code unit, but a character beyond is one element here and two there. On texts with such characters lengths, the order of keys and the expansion of a human-readable part differ from the source, and lone surrogates cannot be written.
- AddressNetwork.DecodeIgnoresCase: lower-casing is modelled for ASCII letters only.
- Floating-point rounding: rates, times and windows are real numbers, sums of sats and lamports are integers without the 2^53 limit.
- Amounts.ArchRoundTrip: does not model the loss of digits above 2^53 in the source's `Number`.
- SessionProtocol, SessionRuns, SessionEnds, SessionGates, SessionCleanup: storage and IndexedDB reads do not fail; `status`, `notify` and `subscribe` are left out; a stamper is the public key it holds.
- SessionProtocol.EnsureServes: does not say which account is served to `ensureClient("")`; SessionGates.EnsureAnswers does.
- SessionEnds.HeldSessionLasts: presupposes, as does SessionEnds.SessionCanEnd, that no call of the realm is under way that could replace the key it holds.
- PlainSend.BuildUnsignedPsbt: addresses, scripts and the PSBT bytes are left out, and with them errors of the PSBT library such as a repeated input; the dust threshold is a parameter.
- InscriptionSend.SelectUtxosForInscriptionSend: `Number(text)`, which reads the vout of a satpoint, is a parameter.
- HubRateLimit: the regular expressions that map a request to its group, URL parsing and the parsing of `retry-after` headers are left out; group, path and wait are given.
- HubRateLimit.CountTakesTime: presupposes times that do not go back and jitter draws in [0, 1).
- WalletSignature: `SignatureUtil.adjustSignature` is a parameter, assumed to keep 64 bytes as they are; trimming of the raw text is left out.
- Amounts.PrintersAgree: takes the integer of `formatRawAmountWithDecimals` already parsed from its text.
- RecentRecipients.WalletStore.AddRecentRecipient: is one step, although the source awaits between loading the state and saving it; two uses at once, one of which is lost, are not modelled.
- CanonicalJson.SortedReplacer: the branch for an object already seen is left out: values are trees.
- CanonicalJson: a number is the text `JSON.stringify` prints; shared objects and cycles, `toJSON` and `undefined` are left out, and SHA-256 is not modelled, so the property is about the hashed text.
- DappRequests, RequestStore: expiry sweeps, closed windows and rejections are one action that may name any id at any time; replies that do not wait for the user, the connector window and requests without a tab are left out.
- Keystore: cryptography is ideal (a key is its password, salt and iteration count) and every operation is one step; storage failures are left out.
- MigratedState: accounts and settings are values, so the aliasing between the input and the returned state is not captured; inputs on which the source throws (`accounts` null, a null account) and properties the migration never mentions are left out; infinities are not among the numbers.
- MigratedState.MigrateApiConfig: the retired keys and the retired address are parameters, not the literals of the source.
- MigratedState.MigrateAccount: is split into three methods for the one loop body of the source.

Not modelled because it would add only easy functions, or is wiring:

- `removeRecentRecipient` and the contacts of the wallet store.
- `detectBtcNetwork`, `reasonsForUtxo`, `formatTokenAmountDisplay`, `groupAddress` and the other classifiers and clamps.
- The user interface, the Hub server, deployment and scripts.
- Real cryptography and the Bitcoin, Arch and Turnkey libraries.
