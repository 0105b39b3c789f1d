# helius-node-emulator: a verified model of the listener core

helius-node-emulator listens to Solana through a Helius WebSocket. It does three things:

- It classifies every transaction notification it receives.
- It sends protobuf messages to downstream consumers, for example when a pump.fun trade moves a bonding curve.
- It keeps a pool of recent blockhashes, each tagged with the time left before it expires.

A small release script, `bump-version.js`, rewrites the `version` field of the JavaScript package's manifest.

This project models the logic of these parts in Dafny and proves properties about it. The model covers:

- **Instruction classifiers** (`pump_fun.dfy`, `daos_fund_deployer.dfy`, `serum.dfy`, `raydium.dfy`, `programs.dfy`): the four watched program addresses, and the `from_data` functions that read a function from the first bytes of an instruction's decoded data. An out-of-range slice or index is an explicit `Panic` outcome.
- **Transaction notification handling** (`transactions.dfy`):
  - the three encoding checks that panic;
  - collecting outer and inner instructions into a compiled list and a parsed list;
  - the dispatch loop that routes each partially decoded instruction to a handler by program and function.
- **pump.fun trade handler** (`trade.dfy`): the bonding curve update it computes from post balances and token balances, with u64 arithmetic checked as in a debug build.
- **Token balance helpers** (`token_balances.dfy`): `find_token_balance_by_address` and `compile_balance_updates`. The latter is the map from (owner, mint) to pre/post amounts that two passes over the balances build. `parse::<u64>().unwrap_or(0)` is written out.
- **Rolling average** (`rolling_average.dfy`): the fixed-capacity ring buffer with a running sum, as a class over an array. Its invariant ties the array, the sum, the index and the count to the sequence of every value pushed.
- **Blockhash processor** (`blockhashes.dfy`):
  - `parse_proxy_str`;
  - round-robin proxy selection;
  - slot-time bookkeeping into the two rolling averages;
  - the window of the 200 most recent blockhashes;
  - `find_blockhash_closest_to_expiry`, proved against a recursive reference definition of "the closest eligible entry, earliest first".
- **Release script** (`bump_version.dfy`): one run of `bump-version.js` with JavaScript semantics. This covers `split`/`join`, `parseInt` (white space, sign, `0x`, NaN), array holes when a slot past the end is assigned, and the falsy empty flag.

Base58 decoding is not modelled. Each classifier receives the instruction's data text together with its decoding (`None` when decoding fails), because the source checks the length of the text, not of the bytes. `f64` values and `Instant`s are modelled as exact `real`s.

## Model

| member | source | states |
|---|---|---|
| PumpFunProgram.FromData | src/programs/pump_fun.rs:36-50 | Panics exactly when the text has at least 8 characters but decodes to fewer than 8 bytes. A recognised function's discriminator equals the big-endian u64 of bytes 0..8. Otherwise the answer is unrecognised exactly when no discriminator matches. |
| PumpFunProgram.FromDataOfDiscriminator | src/programs/pump_fun.rs:24-50 | Data that starts with the 8 big-endian bytes of a function's discriminator is classified as that function, whatever follows. |
| PumpFunProgram.RecognisedHasDiscriminator | src/programs/pump_fun.rs:43-47 | A recognised function's data starts with exactly that function's discriminator bytes (the converse of the lemma above). |
| PumpFunProgram.TrailingBytesIgnored | src/programs/pump_fun.rs:43 | Bytes from index 8 on never change the classification. |
| DaosFundDeployerProgram.FromData | src/programs/daos_fund_deployer.rs:30-42 | Panics exactly when text of at least 8 characters decodes to fewer than 8 bytes. Recognises InitializeCurve exactly when the big-endian u64 of bytes 0..8 is 0x265d01d63bb94c59. |
| DaosFundDeployerProgram.RecognisedIffDiscriminatorBytes | src/programs/daos_fund_deployer.rs:25-39 | InitializeCurve is recognised if and only if the first 8 bytes are the discriminator's big-endian bytes. |
| SerumProgram.FromData | src/programs/serum.rs:32-48 | Panics exactly when text of at least 5 characters decodes to fewer than 5 bytes. Recognises InitializeMarket exactly when the little-endian u32 of bytes 1..5 is 0. |
| SerumProgram.RecognisedIffZeroBytes | src/programs/serum.rs:27-45 | InitializeMarket is recognised if and only if bytes 1 to 4 are all zero. |
| SerumProgram.VersionByteIgnored | src/programs/serum.rs:39-42 | The version byte (byte 0) never changes the answer. |
| RaydiumProgram.FromData | src/programs/raydium.rs:33-46 | Panics exactly when non-empty text decodes to no bytes. Recognises a function exactly when byte 0 is 0 or 1, and the recognised function's discriminator is byte 0. |
| RaydiumProgram.OnlyFirstByteRead | src/programs/raydium.rs:40-45 | Bytes after byte 0 never change the answer. |
| Programs.FromStr | src/programs/mod.rs:14-21 | A recognised program's address equals the input. The result is None exactly when the input equals none of the four addresses. |
| Programs.AddressesDistinct | src/programs/mod.rs:15-20 | The four program addresses are pairwise distinct, so the order of the guards does not matter. |
| Programs.FromStrIff | src/programs/mod.rs:14-21 | `from_str` gives program p if and only if the input is p's address. |
| Programs.FromStrAddress | src/programs/mod.rs:14-21 | Each program's own address is recognised as that program. |
| Programs.UnpaddedDaosAddressUnrecognised | src/programs/daos_fund_deployer.rs:22 | The Daos fund deployer's address without the constant's two trailing spaces is not recognised as any program. |
| TokenBalances.ParseU64 | src/transaction_helpers/compile_balance_updates.rs:32 | A parsed amount never exceeds 2^64 - 1, and the empty string does not parse. The lemmas below pin down the rest of the format. |
| TokenBalances.ParseU64NonDigit | src/transaction_helpers/compile_balance_updates.rs:32 | Any character that is not a digit, other than a leading '+' with more after it, makes the amount unparseable, so `unwrap_or` gives 0. |
| TokenBalances.ParseU64Plus | src/transaction_helpers/compile_balance_updates.rs:32 | A leading '+' before a decimal u64 is accepted, and the value is read as without it. |
| TokenBalances.ParseU64LeadingZero | src/transaction_helpers/compile_balance_updates.rs:32 | A leading zero never changes the amount read from a string of digits. |
| TokenBalances.ParseU64ShowNat | src/transaction_helpers/compile_balance_updates.rs:32 | Every u64 written in decimal parses back to itself. |
| TokenBalances.OverflowingAmountIsZero | src/transaction_helpers/compile_balance_updates.rs:32 | A decimal amount above 2^64 - 1 falls back to 0. |
| TokenBalances.FindTokenBalanceByAddress | src/transaction_helpers/find_token_balance_by_address.rs:3-15 | None exactly when no balance's owner equals the target. Otherwise the result is the first balance whose owner is the target. |
| TokenBalances.KeysLastWithKey | src/transaction_helpers/compile_balance_updates.rs:29-65 | A key occurs among the balances exactly when some balance with that key is the last one. |
| TokenBalances.LastWithKeyIsLast | src/transaction_helpers/compile_balance_updates.rs:35-44 | The balance whose write survives for a key is an entry with that key, and no later entry has the key. |
| TokenBalances.OwnerlessAddNothing | src/transaction_helpers/compile_balance_updates.rs:30 | A balance without an owner adds no key to the map. |
| TokenBalances.PreStep | src/transaction_helpers/compile_balance_updates.rs:29-46 | One step of the pre loop (modify the entry or insert it) keeps the map equal to the reference over one more pre balance. |
| TokenBalances.PostStep | src/transaction_helpers/compile_balance_updates.rs:48-65 | One step of the post loop keeps the map equal to the reference over one more post balance. |
| TokenBalances.CompileBalanceUpdates | src/transaction_helpers/compile_balance_updates.rs:23-68 | The map's keys are exactly the (owner, mint) pairs of owned pre and post balances. Each entry holds the amount of the last pre balance with that key (or 0), the amount of the last post one (or 0), and the decimals of the last post balance, or of the last pre balance when no post balance has the key. |
| PumpFunTrade.Position | src/instructions/pump_fun/trade.rs:57 | None exactly when the key is absent. Otherwise the result is the first index holding the key. |
| PumpFunTrade.TradeHandler | src/instructions/pump_fun/trade.rs:35-93 | Fewer than 3 accounts panics. The handler returns without an update exactly when the token is not tracked. An update carries account 2 as token and account 3 as curve, the curve's post lamports, virtual lamports = real + 30e9, virtual tokens = curve balance + 73e12 and real tokens = curve balance - 206.9e12. |
| PumpFunTrade.VirtualRealTokenGap | src/instructions/pump_fun/trade.rs:30-69 | In every update sent, virtual token reserves exceed real token reserves by 279.9e12 base units. |
| PumpFunTrade.UpdateIffBalanceCoversReserve | src/instructions/pump_fun/trade.rs:56-78 | Once accounts, key, lamports and token balances are present, an update is sent if and only if the curve's token balance is at least 206.9e12 and both sums fit in u64. |
| PumpFunTrade.MissingCurveBalancePanics | src/instructions/pump_fun/trade.rs:62-69 | A curve that owns no token balance, or whose first owned balance has an amount that does not parse, reads as 0. The real-reserve subtraction then underflows and the handler panics. |
| Transactions.InnerFlatLength | src/processors/transactions.rs:282-291 | Flattening the inner groups keeps every instruction: the length is the sum of the group sizes. |
| Transactions.FlattenPositions | src/processors/transactions.rs:275-291 | Instruction j of inner group g sits right after the outer instructions and the groups before g. |
| Transactions.ParsedOfAppend | src/processors/transactions.rs:275-291 | Collecting two runs of instructions gives the concatenation of their parsed lists, and of their compiled lists. |
| Transactions.PartitionCount | src/processors/transactions.rs:276-279 | Every instruction goes into exactly one of the two lists. |
| Transactions.NotificationPartitionCount | src/processors/transactions.rs:275-291 | Over a notification, the two lists together hold as many instructions as the outer list and all inner groups. |
| Transactions.Launch | src/instructions/pump_fun/creation.rs:65-68 | A handler that is reached either fires or panics, and it panics exactly when the instruction is too short for its account lookups: creation needs 8 accounts (index 7), initialize_curve 10 (index 9, `initialize_curve.rs:23-25`) and initialize_two 8 (index 7, `initialize_two.rs:12`). The other handlers never panic here. |
| Transactions.RouteOfProgram | src/processors/transactions.rs:297-301 | A handler is reached (fires or panics) only for an instruction whose address names that handler's program. |
| Transactions.RouteOfRoutedTo | src/processors/transactions.rs:294-373 | A handler is reached for a partially decoded instruction if and only if the routing table (program, then function) sends the instruction there. It fires if and only if, in addition, its account lookups do not panic. |
| Transactions.FullyParsedNoHandler | src/processors/transactions.rs:296 | Fully parsed instructions never reach a handler. |
| Transactions.DispatchedDone | src/processors/transactions.rs:294-373 | The dispatch runs to the end exactly when no classifier and no reached handler panics, and then it fires every instruction's event in order. |
| Transactions.DispatchedPanicked | src/processors/transactions.rs:294-373 | A dispatch that panics stops at the first instruction whose classifier or handler panics, with the events of the instructions before it. |
| Transactions.FirstPanicStops | src/processors/transactions.rs:294-373 | Conversely, when the first panic is at instruction k, the dispatch panics there, having fired exactly the events of the first k instructions. |
| Transactions.FiredOnlyRouted | src/processors/transactions.rs:294-373 | Every fired event comes from a partially decoded instruction that the routing table sends to that handler. |
| Transactions.DispatchedPanickedPrefix | src/processors/transactions.rs:294-373 | After a panic, later instructions change nothing. |
| Transactions.Collect | src/processors/transactions.rs:275-280 | The loop appends exactly the compiled and the parsed instructions of its input, in order. |
| Transactions.CollectAll | src/processors/transactions.rs:272-291 | The two lists are the compiled and the parsed instructions of the outer instructions followed by every inner group. |
| Transactions.DispatchAll | src/processors/transactions.rs:294-373 | The loop's outcome equals the reference dispatch, whose properties are the lemmas above: it stops at the first classifier or handler panic. |
| Transactions.HandleTransactionNotification | src/processors/transactions.rs:249-374 | A notification passes the encoding checks if and only if it has a meta, a JSON transaction and a parsed message. Otherwise it is rejected for the first missing one, in the source's order: meta, transaction encoding, message encoding. A notification that passes holds the collected lists and their dispatch, and that dispatch may still end in a classifier or handler panic. |
| RollingAverages.RecentPush | src/helpers/rolling_average.rs:19-31 | Once n values are present, a new value pushes the oldest one out of the window. |
| RollingAverages.SumFront | src/helpers/rolling_average.rs:20-22 | The oldest value can be subtracted from the running sum. |
| RollingAverages.PushWhileFilling | src/helpers/rolling_average.rs:23-30 | A push into a buffer that is not full keeps the buffer invariant. |
| RollingAverages.PushWhenFull | src/helpers/rolling_average.rs:20-30 | A push into a full buffer keeps the invariant, because the overwritten slot held the oldest value. |
| RollingAverages.RollingAverage.constructor | src/helpers/rolling_average.rs:10-17 | An all-zero buffer of the given capacity with nothing pushed yet. |
| RollingAverages.RollingAverage.Push | src/helpers/rolling_average.rs:19-31 | Writes the value at idx, advances idx modulo the capacity and counts up to the capacity. Keeps the invariant: the sum is the sum of the last min(pushed, cap) values. |
| RollingAverages.RollingAverage.PushFull | src/helpers/rolling_average.rs:20-30 | The full-buffer branch of push: count stays at the capacity, and the invariant is kept. |
| RollingAverages.RollingAverage.PushFilling | src/helpers/rolling_average.rs:23-30 | The filling branch of push: count grows by one, and the invariant is kept. |
| RollingAverages.RollingAverage.Average | src/helpers/rolling_average.rs:33-39 | 0 before anything is pushed. Otherwise the mean of the last min(n, cap) pushed values. |
| Blockhashes.ParseProxyStr | src/processors/blockhashes.rs:95-105 | Indexing panics exactly when the line has fewer than three ':'. |
| Blockhashes.ParseProxyStrFields | src/processors/blockhashes.rs:95-105 | A line joined from four ':'-free fields (and any extra fields) gives the URL of those four fields. |
| Blockhashes.ClosestIndexIsClosest | src/processors/blockhashes.rs:251-265 | The scan finds nothing exactly when no entry is under 150 slots old. What it finds is eligible, strictly closer than every earlier eligible entry, and no farther than every later one. |
| Blockhashes.ClosestIsUnique | src/processors/blockhashes.rs:261-264 | At most one entry satisfies that description. |
| Blockhashes.ClosestBlockhash | src/processors/blockhashes.rs:242-268 | None when the average block time is not positive, or when no entry is eligible. Otherwise the blockhash of the closest entry. |
| Blockhashes.RecentOfRecent | src/processors/blockhashes.rs:202-210 | Trimming to 200 after every push gives the last 200 entries of the whole history. |
| Blockhashes.ScanClosest | src/processors/blockhashes.rs:248-267 | The scan loop returns the reference closest blockhash. |
| Blockhashes.BlockhashProcessor.constructor | src/processors/blockhashes.rs:81-93 | Proxy index 0, empty averages, no slot seen, no recent hash. |
| Blockhashes.BlockhashProcessor.ChooseProxies | src/processors/blockhashes.rs:135-146 | Returns the old proxy index and advances it by the number of workers modulo the proxy count. Worker i gets proxy (start + i) mod count. |
| Blockhashes.BlockhashProcessor.PushSlotTimes | src/processors/blockhashes.rs:183-186 | Both averages receive d more copies of the per-slot time, and both keep their invariant. |
| Blockhashes.BlockhashProcessor.KeepRecent | src/processors/blockhashes.rs:202-210 | The new entry is appended and only the last 200 are kept. |
| Blockhashes.BlockhashProcessor.RecordBlockhash | src/processors/blockhashes.rs:176-218 | The bookkeeping of one loop turn after the RPC reply, where `now` is the instant the turn's request started: both averages receive the turn's slot times (`StepTimes`: a saturating slot difference d, and when it is positive, d copies of the elapsed time, saturating at zero as `Instant` subtraction does, divided by d). Also the trimmed recent window, the new last slot and instant, the same buffers and the proxy index unchanged. |
| Blockhashes.BlockhashProcessor.Turn | src/processors/blockhashes.rs:163-218 | One whole turn: the proxy index moves two steps round the ring of proxies (`Rotate`, two workers), then the reply is recorded as above. |
| Blockhashes.BlockhashProcessor.TakeTurn | src/processors/blockhashes.rs:163-218 | The state after i turns of a run becomes the state after i + 1 turns. |
| Blockhashes.BlockhashProcessor.RunTurns | src/processors/blockhashes.rs:162-219 | Repeated turns of the processor loop: the proxy index ends 2 * turns steps round the ring from where it started (`Rotate`, which `RotateMod` equates with (start + 2 * turns) mod the proxy count); every reply is recorded in order and the recent window is the last 200 of them; both averages receive the slot times of every turn, each measured from the turn before it (`SlotTimes`); with no reply the last slot and instant are unchanged, otherwise they come from the last reply. |
| Blockhashes.RotateMod | src/processors/blockhashes.rs:136-141 | Stepping k times round a ring of n proxies from p < n lands on (p + k) mod n, the index the modulo update computes. |
| Blockhashes.RotateAdd | src/processors/blockhashes.rs:136-141 | j steps round the ring followed by k more are j + k steps. |
| Blockhashes.SlotTimesCount | src/processors/blockhashes.rs:176-186 | When slots never go back, a run pushes exactly one value per slot advanced since the slot seen before the run. |
| Blockhashes.BlockhashProcessor.FindBlockhashClosestToExpiry | src/processors/blockhashes.rs:242-268 | Equals the reference closest blockhash, computed from the 50-slot average. |
| BumpVersion.RuleOf | js-package/scripts/bump-version.js:20-39 | Each of the three flags selects its rule, and no other string selects a rule. |
| BumpVersion.ParseIntShowNat | js-package/scripts/bump-version.js:25 | `parseInt` reads back every number the script writes. |
| BumpVersion.IncrementedShowNat | js-package/scripts/bump-version.js:25-34 | A segment holding n becomes n + 1. |
| BumpVersion.Store | js-package/scripts/bump-version.js:25-34 | Assigning a slot past the end leaves holes. Every other slot keeps its value. |
| BumpVersion.BumpedParts | js-package/scripts/bump-version.js:24-35 | Segments past the third are kept. |
| BumpVersion.Run | js-package/scripts/bump-version.js:1-49 | A non-string version fails with a TypeError, a missing or empty flag gives the usage error, `--skip` skips, and an unknown flag gives the invalid-flag error. A bump happens exactly for the three flags. It writes the joined segments into `version`, leaves every other field as it was, writes the stringified manifest plus a newline and prints the new version. |
| BumpVersion.BumpMajor | js-package/scripts/bump-version.js:24-28 | "X.Y.Z" becomes "(X+1).0.0". |
| BumpVersion.BumpMinor | js-package/scripts/bump-version.js:29-32 | "X.Y.Z" becomes "X.(Y+1).0", with X's text unchanged. |
| BumpVersion.BumpPatch | js-package/scripts/bump-version.js:33-35 | "X.Y.Z" becomes "X.Y.(Z+1)". |
| BumpVersion.LeadingZeroKeptByMinor | js-package/scripts/bump-version.js:29-32 | `--minor` keeps a leading zero verbatim: "01.2.3" becomes "01.3.0". |
| BumpVersion.ShortVersion | js-package/scripts/bump-version.js:29-35 | A one-segment version does not fail: "5" becomes "5.NaN.0" under `--minor` and "5..NaN" under `--patch`. |
| Text.SplitJoin | js-package/scripts/bump-version.js:9-41 | Joining separator-free segments and splitting again gives the segments back. |
| Text.JoinSplit | js-package/scripts/bump-version.js:9-41 | Splitting and joining again gives the original string. |

## Left out

- Base58 decoding of instruction data is an input to each classifier, not modelled. So is JSON parsing of notifications (`serde_json`), the RPC reply and the manifest. `JSON.stringify` is a function parameter of `BumpVersion.Run`.
- File I/O, the console, `process.exit`, logging and the `info!` every tenth slot all lead to no decision, so they are left out. `BumpVersion.Run` returns what would be written or printed, and the exit status is `ExitCode`.
- Redis is not modelled. The `sismember` answer is the `isTracked` input of the trade handler, and its error falls back to false as in the source. The Redis writes of `store_expiration_keys` are left out. The `recent_blockhash` key would hold the blockhash of the newest entry of `recentHashes`. Each of the five `recent_blockhash_with_expiration:{t}` keys, for t in 5, 15, 30, 45 and 60 seconds, would hold `FindBlockhashClosestToExpiry(newSlot, t)`, written only when that is not `None`.
- The channel sends, protobuf encoding and the WebSocket connection and subscription (`new`, `start_connection`, `subscribe_to_transactions`, `process_messages`, `handle_message`) are not modelled. They are I/O with no logic of the core.
- `send_blockhash_request` and the `select_all` race between workers are not modelled: network and concurrency. `ChooseProxies` models the proxy choice, and the reply is an input of `Turn`. A failed request ends `start_processor` with an error (the `?`); `RunTurns` covers only turns whose request got a reply. The `Mutex` around the proxy index is left out, so each call is one atomic step.
- The 400 ms sleep and `Instant::now()` are left out. Times are `real` parameters: each reply carries the instant its turn's request started. The elapsed time saturates at zero (`Elapsed`) as `Instant` subtraction does.
- Blockhashes.BlockhashProcessor.ChooseProxies: an empty proxy file makes the modulo panic, and the precondition excludes that case.
- `PROXY_URLS` is a lazily initialised static in the source, read from the proxy file on first use. It is a constructor parameter here.
- `f64` rounding is not modelled: sums, divisions and differences are exact reals. In particular the running sum of `RollingAverage` drifts in floating point but not here.
- Blockhashes.ScanClosest: the source starts `best_diff` at `f64::MAX`, and the model starts with no best entry instead. The two differ only for a distance above `f64::MAX`, which real inputs cannot reach.
- RollingAverages.RollingAverage.Push: the capacity is a constant field, not a const generic. The two branches of `push` are separate methods (`PushFull`, `PushFilling`) so that each proof stays small.
- PumpFunTrade.TradeHandler: models debug-build checked arithmetic, where a u64 overflow or underflow panics. A release build would wrap around instead, and that is not modelled.
- PumpFunTrade.TradeHandler: post balances are assumed to be u64 values (a precondition on the input), as their Rust type guarantees.
- The handlers that dispatch reaches (creation, initialize_curve, initialize_market, initialize_two, buy and sell) are modelled only by whether their account lookups panic (`HandlerPanics`). What they send is not modelled. Dispatch records which handler fires for which instruction. The trade handler is modelled on its own.
- Transactions.Launch: of the handler panics, only the account lookups are modelled. Not modelled are creation's metadata decoding panic (`creation.rs:58-63`, Borsh decoding is not modelled), its panic when the meta has no post token balances (`creation.rs:70-75`), the `expect` on every channel send, and the `expect`s of the Daos file dump. The bodies of `buy_handler` and `sell_handler` are not part of this model. Creation's Base58 decoding (`creation.rs:46-48`) cannot fail once the classifier has recognised the data.
- Transactions.DispatchedDone: where a handler would panic in one of the ways `Launch` leaves out, the model's dispatch goes on.
- Transactions.DispatchedPanicked: a panic in one of the ways `Launch` leaves out is not among the panics it describes.
- Transactions.DispatchAll: like the reference dispatch, it goes on past the handler panics `Launch` leaves out.
- Transactions.HandleTransactionNotification: its dispatch goes on past the handler panics `Launch` leaves out.
- The Daos branch's dump of the notification into `./unknown-txs/` is file I/O and is not modelled.
- BumpVersion.Run: the field order of the written manifest is not modelled. `JSON.stringify` writes fields in insertion order, and assigning `version` keeps its place, but the manifest is an unordered map here.
- BumpVersion.Run: JavaScript number precision is not modelled. `parseInt` on segments above 2^53 loses precision and prints in exponent form from 10^21, while the model uses exact integers.
- The commented-out SOL balance tracking and the debugging dump in `handle_transaction_notification` are not code, and are not modelled.
