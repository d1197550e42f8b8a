# The wasm keeper, in Dafny

This project models the `x/wasm` keeper: a state machine over a byte-keyed store, account
balances and a gas meter, that runs unknown contracts which call back into it. It proves what
holds over whole call trees and whole transaction histories, for every behaviour of every
contract.

## How the model is built

Three descriptions of the same operations, each proved to agree with the next:

1. `Keepers.Keeper` (`Keeper.dfy`) is the keeper as the source has it: a class whose methods
   update a flat key-value store, balances and a meter in place, with the loops of the source.
   `StateTransfer.dfy` adds genesis import and export and the list queries over the same object.
2. `Engine.dfy` and `Genesis.dfy` give the same operations as functions of a structured world
   (two counters, codes, contracts, one map per contract). Re-entrance is mutual recursion that
   ends because every call spends gas. Every method of the class ends in the world its function
   says, with the flat store representing that world (`Layout.Represents`), at every point of
   failure as well.
3. `Machine.dfy` is a reference semantics without recursion over calls: a stack of pending tasks,
   one local step at a time, that stops at the first failure. `ExecuteIsRun` and
   `InstantiateIsRun` prove that the recursive operations end exactly as the machine does.

`Answers.dfy` says how each of these operations ends: its answer, the gas spent and the state left,
for all inputs and at every point of failure, in amounts, literal bytes and the foreign functions.
`Migrations.dfy` does so for any genesis state.

The whole-tree theorems (`Funds`, `Registrations`, `Ownership`, `Uploads`, `Lifecycle`,
`Metering`, `Affordability`, `Invocations`, `Traces`) are proved about single machine steps (`Effects.dfy`),
lifted to runs by induction, and restated for `Execute` and `Instantiate`. `Chain.dfy` takes them to
histories of transactions. `Lives.dfy` takes them to whole lives of a chain: any alternation of
histories with exports and imports, from an empty wasm store. A reachable state is any state of any
such life; as genesis.go demands of its callers, the accounts of all contracts exist before each
import. `Continuity.dfy` runs the same transactions on a chain and on its imported copy and compares
them. `Counterexamples.dfy` gives the concrete environments and histories in which an unconditional
claim fails.

A world records its history in a log: `Called` (an attempt to execute an address), `Ran` (contract
code was invoked), `Billed` (a wasm charge) and `Generated` (an instance id was drawn). Theorems
that speak of "the contracts that ran" or "the ids drawn" speak of the events added to that log.

## What is foreign, and how it enters

`Types.Env` holds everything outside the repository as arbitrary functions, so each theorem is
about all of them at once.

- A contract is a function from its input (entry point, code hash, signer, coins, address,
  balance, message, own store, gas) to the writes it made, the storage gas these cost, and either
  an error or the gas it reports, the messages it sends and its data. Its writes stay when it
  reports an error, as writes to the keeper's store do.
- Metered store accesses cost a positive, otherwise arbitrary amount that may depend on key and
  value. Account reads and bank transfers cost an arbitrary amount. A meter panics as soon as its
  limit is passed, and a panic unwinds the whole tree.
- The bank: a transfer is refused (invalid or unsorted coins, insufficient funds, or the bank
  handler's own policy) and then moves nothing, or it takes the coins from the payers and gives
  them to the receivers, creating missing accounts. A multisend must balance.
- The virtual machine stores accepted code under its hash, accepts only byte strings that start
  with the wasm magic, and never forgets code. Different codes may share a hash.
- Address text either decodes to bytes or does not; an opaque message either decodes to an SDK
  message or does not.
- In `Chain.dfy` a failed transaction is undone, except for code the virtual machine accepted.

## Where the source falls short of the obvious claim

- Contract ids: `codeID<<32 + instanceID` is injective only while instance ids fit 32 bits;
  `ContractIDsCollideIff` gives the exact condition and `LateInstancesCollide` an example. The
  uniqueness theorems (`ExecuteDrawsUniqueIDs`, `ReachableIDsDiffer`) therefore speak of any two
  draws whose instance ids are below 2^32, whatever else is drawn.
- Both counters wrap after 2^64 - 1 (`CreateKeepsContiguousIff`, `DrawnIDsRepeatIff`). The theorems
  about reachable states ask that less than 2^64 gas was used, because each id drawn costs gas.
- Gas grants: `(limit - consumed) * 100` can wrap, which only ever under-grants
  (`GrantIsCappedRemainder`, `HugeLimitUnderGrants`).
- Gas charges: contracts that stay within their grants can still exhaust the meter, because their
  storage accesses are charged to the same meter during the run
  (`Counterexamples.HonestContractsCanOverrun`). `InvokeBrokeIff` says exactly when an invocation
  is stopped that way. `NeverBrokeIff` says exactly when no call ever is: when on no occasion that
  can arise, init runs and funded runs included, a run overruns what was left.
- Genesis: the instance counter is not exported. Every other slot of a reachable state comes back
  (`ReachableRoundTrip`), so the import is complete exactly when no instance was drawn since the
  chain was last started (`ReachableImportIsCompleteIff`; `Counterexamples.CounterIsLost` is a
  history where it is not). Later transactions are unaffected as long as they perform no launch
  (`ImportedChainGoesOn`).
- Instance ids are therefore drawn again after an import. No address is registered twice for all
  that (`ReachableRegistersOnce`): a launch with gas to reach the account check is refused there
  exactly when its address has an account (`AccountCheckFiresIff`). A refused launch is undone, so a code whose next address
  is taken stays refused for as long as the counter stands still (`RefusedWhileCounterStands`,
  `CounterStandsIff`, `ImportForgetsInstances`). The counter is shared: launching another code
  moves it on and can unblock the first (`Counterexamples.AnotherLaunchUnblocks`).

## Model

The functions of `Engine.dfy` and `Genesis.dfy` are the specification the other members speak
about; the table lists the members that state something about it or connect it to the store.

| member | source | states |
|---|---|---|
| Bytes.Uint64RoundTrip | x/wasm/internal/keeper/keeper.go:409-429 | a counter survives being stored as 8 big-endian bytes, and every 8-byte string is the encoding of its value |
| Bytes.UvarintFits | x/wasm/internal/keeper/keeper.go:431-436 | the varint of any uint64 takes at most 10 bytes, so it fits behind the leading byte |
| Bytes.AddressBufferInjective | x/wasm/internal/keeper/keeper.go:431-436 | the id can be read back from the zero-padded 20-byte buffer, so different ids give different buffers |
| Bytes.AddressBufferIs | x/wasm/internal/keeper/keeper.go:431-436 | byte by byte: 'C', the base-128 digits of the id from the lowest to the last that is not zero, the high bit set on all but that one, and zeros up to 20 bytes |
| Bytes.LessIff | x/wasm/internal/keeper/keeper.go:240-257 | the order of iteration: at the first byte where they differ the one is smaller, or it ends there |
| Layout.KeysInjective | x/wasm/internal/types/keys.go:25-48 | two meanings share a key only if they are the same: encoders are injective and the five regions disjoint |
| Layout.KeyBytes | x/wasm/internal/types/keys.go:25-48 | the literal bytes of all five kinds of keys; an id as 8 base-256 digits, highest first |
| Layout.PutSimulates | x/wasm/internal/keeper/keeper.go:235-238 | a write at one key of the flat store is the update of exactly one slot of the structured registry |
| Layout.PrefixIterationOrder | x/wasm/internal/keeper/keeper.go:240-257 | iterating a prefix store visits exactly the store's keys under that prefix, in the store's ascending order |
| Layout.ContractsView | x/wasm/internal/keeper/keeper.go:240-251 | under 0x02 lie exactly the registered contracts |
| Layout.DataView | x/wasm/internal/keeper/keeper.go:253-257 | under 0x03 and an address of any length lies exactly what `DataUnder` names: the pairs whose owner and key together start with it |
| Layout.DataUnderAddress | x/wasm/internal/keeper/keeper.go:253-257 | for a 20-byte address those are precisely the contract's own pairs |
| Coins.AmountRoundTrip | x/wasm/internal/types/types.go:63-72 | a printed amount parses back to itself exactly when it fits the integer type |
| Coins.ParseAmountIs | x/wasm/internal/keeper/keeper.go:346-351 | every plain decimal numeral, negative ones included, is read as the number it is the numeral of exactly if that fits 255 bits; other strings are read as the library reads them |
| Coins.TwoTo255 | x/wasm/internal/keeper/keeper.go:346-351 | the bound on amounts is 2^255 |
| Coins.CoinsRoundTrip | x/wasm/internal/keeper/keeper.go:346-357 | coins shown to a contract and sent back unchanged parse to the same list in the same order, exactly when every amount fits |
| Coins.ShownCoins | x/wasm/internal/types/types.go:63-72 | a contract is shown the same denominations in the same order, each with its amount digit by digit in decimal |
| Coins.NewWasmCoins | x/wasm/internal/types/types.go:63-72 | the loop converts every coin, in order |
| Coins.ParseCoins | x/wasm/internal/keeper/keeper.go:346-357 | the loop yields all coins in order, or fails if any amount is unreadable |
| Gas.GrantNeverExceedsMeter | x/wasm/internal/keeper/keeper.go:386-393 | the grant is worth no more than the meter has left, even when the product wraps |
| Gas.GrantIsCappedRemainder | x/wasm/internal/keeper/keeper.go:386-393 | the grant equals the capped remainder exactly when the product does not wrap, or wraps to at least the cap |
| Gas.HugeLimitUnderGrants | x/wasm/internal/keeper/keeper.go:386-393 | a concrete limit for which the wrapped product grants 84 |
| Gas.WasmChargeFits | x/wasm/internal/keeper/keeper.go:386-398 | at any meter, every use within the grant can be paid after storage gas was taken exactly when the grant's worth still fits; below the wrap, exactly when none was taken or the capped grant still fits |
| Gas.Conversions | x/wasm/internal/keeper/keeper.go:386-398 | in literal numbers: 100 units for each one left, modulo 2^64, at most 900 million; back, one for each full hundred |
| Types.CompiledPassesUncompress | x/wasm/internal/keeper/ioutil.go:19-33 | code the virtual machine accepted is never taken for a gzip stream |
| Types.UpdatesLast | x/wasm/internal/keeper/keeper.go:113-120 | after a contract's writes the last write or deletion under each key counts, and keys it did not touch are as before |
| Answers.CreateFailsIff | x/wasm/internal/keeper/keeper.go:65-74 | an upload is refused exactly if its bytes, inflated if they start with 1F 8B 08, are no wasm that the virtual machine takes, and then nothing has changed |
| Answers.CreateEnds | x/wasm/internal/keeper/keeper.go:65-83 | otherwise it succeeds exactly if there is gas: the id is the counter, the entry holds the hash of those bytes, creator, source and builder, and the virtual machine holds the bytes |
| Answers.IncrementEnds | x/wasm/internal/keeper/keeper.go:419-429 | a counter hands out what it holds, or 1, and then holds the successor in 64 bits, at the cost of one read and one write |
| Answers.InvokeEnds | x/wasm/internal/keeper/keeper.go:154-159 | a run of a contract gets its own store and the grant; its writes and storage gas stay however it ends; a finished one is charged one for each full hundred of the gas it reported, logged as such |
| Answers.TransferEnds | x/wasm/internal/keeper/keeper.go:94-98 | coins are refused exactly if not positive, well-formed and ascending, or not covered by the balance of the payer; otherwise every balance changes by exactly these |
| Bank.WellFormedAmount | x/wasm/internal/keeper/keeper.go:94-98 | in such a list each coin is all there is of its denomination, and there is none of any other |
| Answers.ContractInstanceEnds | x/wasm/internal/keeper/keeper.go:203-222 | which of the two lookups fails, what both cost, and that the code found is the one recorded |
| Answers.ExecuteHeadEnds | x/wasm/internal/keeper/keeper.go:141-159 | how Execute ends before dispatching, at each of its six points of failure and on success |
| Answers.AddressIs | x/wasm/internal/keeper/keeper.go:401-407 | the address is the hash of that buffer for code id times 2^32 plus instance id, modulo 2^64 |
| Answers.NewAddressIs | x/wasm/internal/keeper/keeper.go:401-436 | the next address of a code is the one for the stored instance counter, or for 1 |
| Answers.GenerateEnds | x/wasm/internal/keeper/keeper.go:401-407 | drawing an address: its cost, the counter after it, and which address it is |
| Answers.SetUpAnswers | x/wasm/internal/keeper/keeper.go:94-125 | how funding and running a new contract ends, at each point of failure; the deposit stays paid when the code turns out not to exist |
| Answers.InstantiateHeadEnds | x/wasm/internal/keeper/keeper.go:86-125 | how Instantiate ends before dispatching: out of gas, address taken, or as the previous row says for the new address |
| Answers.InstantiateReturns | x/wasm/internal/keeper/keeper.go:132-137 | a successful Instantiate returns the address of the next instance, recorded with code id, creator and init message |
| Answers.DispatchMessageEnds | x/wasm/internal/keeper/keeper.go:298-323 | what each kind of message comes to, the first part present counting; a contract message calls without coins in the name of the contract, after its transfer |
| Answers.UnreadableSendEnds | x/wasm/internal/keeper/keeper.go:325-357 | no tokens: done; an unreadable address or amount: refused with nothing changed |
| Answers.SendTokensEnds | x/wasm/internal/keeper/keeper.go:325-384 | how a readable send of any number of coins ends: not its own coins, refused by the bank, out of gas, bad coins, too few, or moved |
| Answers.SendMessageSucceedsIff | x/wasm/internal/keeper/keeper.go:298-384 | a send message succeeds if and only if both addresses and all amounts can be read, the contract is the sender and has enough of each coin, the coins are in order, the bank does not refuse and the gas suffices |
| Answers.HandleSdkMessageEnds | x/wasm/internal/keeper/keeper.go:366-384 | a message is refused, with nothing changed, unless the contract is its sender, its payer or each of its inputs; otherwise it is handled as anyone's; uploads and transfers are unauthorised for no other reason |
| Answers.HandleEnds | x/wasm/handler.go:15-110 | where each kind of message goes, with which arguments, and which are refused |
| Machine.Run | x/wasm/internal/keeper/keeper.go:289-323 | dispatching always ends, by gas left and work left; gas and history only grow and the limit stays |
| Machine.ExecuteIsRun | x/wasm/internal/keeper/keeper.go:141-167 | recursive Execute ends with the same world and outcome as the machine given that one call |
| Machine.InstantiateIsRun | x/wasm/internal/keeper/keeper.go:86-138 | the same for Instantiate, whose registration is the last thing on its stack |
| Machine.DispatchesRefine | x/wasm/internal/keeper/keeper.go:289-296 | messages are run left to right, each with all it triggers, before anything below them on the stack |
| Machine.DispatchRefines | x/wasm/internal/keeper/keeper.go:298-323 | one message does what one stack task does, for every kind of message and every failure |
| Machine.SdkRefines | x/wasm/internal/keeper/keeper.go:366-384 | a signed SDK message re-entering through the router does what the scheduled call does |
| Traces.RunHasTrace | x/wasm/internal/keeper/keeper.go:289-323 | every run is a chain of successful steps up to an empty stack or a first failing task, after which nothing runs |
| Traces.TraceIsRun | x/wasm/internal/keeper/keeper.go:289-323 | conversely any such chain fixes the outcome |
| Traces.ExecuteSucceedsIff | x/wasm/internal/keeper/keeper.go:141-167 | Execute succeeds if and only if a chain of successful steps from that call empties the stack |
| Funds.StepIsSound | x/wasm/internal/keeper/keeper.go:366-384 | a step conserves coins, takes only from its payer, and schedules only work paid by that payer or by the contract just run |
| Funds.RunIsSound | x/wasm/internal/keeper/keeper.go:289-384 | the same over any run from any stack |
| Funds.ExecuteConserves | x/wasm/internal/keeper/keeper.go:141-167 | every denomination's total is unchanged and no balance turns negative, however the call ends |
| Funds.InstantiateConserves | x/wasm/internal/keeper/keeper.go:86-138 | the same for Instantiate |
| Funds.ExecuteSpendsOnlyWhatItMay | x/wasm/internal/keeper/keeper.go:366-372 | whoever has less afterwards is the caller or a contract whose code ran in the tree |
| Funds.InstantiateSpendsOnlyWhatItMay | x/wasm/internal/keeper/keeper.go:366-372 | the same for Instantiate and its creator |
| Uploads.RunUploads | x/wasm/internal/keeper/keeper.go:366-384 | over any run each code entry that is new names as creator a contract that ran, or one that the stack began with |
| Uploads.ExecuteUploadsOwn | x/wasm/internal/types/msg.go:75-77 | whatever a call tree uploads is recorded as created by a contract that ran in it |
| Uploads.InstantiateUploadsOwn | x/wasm/internal/types/msg.go:75-77 | the same for Instantiate |
| Chain.DeliverUploadsOwn | x/wasm/handler.go:42-65 | a transaction uploads only in the name of its signers or of contracts it ran |
| Registrations.StepKeepsInv | x/wasm/internal/keeper/keeper.go:76-80 | each step keeps the registry invariant, loses no entry and registers no address that has an account unless it was waiting |
| Registrations.RunKeepsInv | x/wasm/internal/keeper/keeper.go:86-167 | the same over any run: append-only however it ends, invariant at the end unless a panic cut a step short, provided the gas the run used could not wrap the counter |
| Registrations.RunRegistersOnce | x/wasm/internal/keeper/keeper.go:86-138 | over any run, nested instantiations included, the addresses registered are pairwise different, none had a contract before, and they are exactly the contracts that are new |
| Registrations.RunStillHolds | x/wasm/internal/keeper/keeper.go:65-83 | no run, however it ends, loses code that the virtual machine held |
| Registrations.ExecuteKeepsRegistry | x/wasm/internal/keeper/keeper.go:141-167 | no code or contract entry is lost or changed by any re-entrant call, and the invariant holds again |
| Registrations.InstantiateKeepsRegistry | x/wasm/internal/keeper/keeper.go:86-138 | the same, and the registered address had neither account nor entry before and holds the given record after |
| Registrations.CreateKeepsContiguousIff | x/wasm/internal/keeper/keeper.go:419-429 | storing a code keeps ids contiguous if and only if the counter does not wrap |
| Registrations.ExecuteIsolatesStores | x/wasm/internal/keeper/keeper.go:142-155 | a contract's store differs afterwards only if its own code ran |
| Registrations.InstantiateIsolatesStores | x/wasm/internal/keeper/keeper.go:113-120 | the same for Instantiate |
| Lifecycle.RunLeavesUnborn | x/wasm/internal/keeper/keeper.go:203-209 | while an address has an account but no entry, no run executes it, and a run that tries fails as a whole |
| Lifecycle.NoEarlyCalls | x/wasm/internal/keeper/keeper.go:127-135 | from init until Instantiate ends the new contract's code never runs again, and an attempt at any depth fails the instantiation |
| Lifecycle.SelfCallInInitFails | x/wasm/internal/keeper/keeper.go:127-135 | a contract whose init messages execute it is never created |
| Lifecycle.ContractIDsCollideIff | x/wasm/internal/keeper/keeper.go:401-407 | for all pairs, exactly when two contract ids coincide |
| Lifecycle.LateInstancesCollide | x/wasm/internal/keeper/keeper.go:403-405 | two different pairs with the same contract id |
| Lifecycle.RunDrawsInOrder | x/wasm/internal/keeper/keeper.go:401-429 | over any run, nested instantiations included, the instance ids drawn are those that follow the counter, in order and modulo 2^64, the counter ends after the last of them, and each draw is paid for in gas |
| Lifecycle.ExecuteDrawsUniqueIDs | x/wasm/internal/keeper/keeper.go:401-436 | any two draws of a call tree, or made since any earlier point, with ids below 2^32 have different contract ids and buffers, and different addresses unless the hash collides on those buffers; at most 2^64 draws apart |
| Lifecycle.InstantiateDrawsUniqueIDs | x/wasm/internal/keeper/keeper.go:401-436 | the same for Instantiate |
| Lifecycle.DrawnIDsRepeatIff | x/wasm/internal/keeper/keeper.go:419-429 | two draws got the same instance id if and only if a multiple of 2^64 draws lies between them |
| Lifecycle.AccountCheckFiresIff | x/wasm/internal/keeper/keeper.go:88-92 | the account check refuses an instantiation if and only if the drawn address has an account and the gas reaches that far |
| Lifecycle.TakenAddressFails | x/wasm/internal/keeper/keeper.go:88-92 | on a taken address the outcome is that error or running out of gas before it, as the gas left decides, and no entry, coin or code has changed |
| Metering.ExecuteGasAccount | x/wasm/internal/keeper/keeper.go:395-398 | with U reported in n bills, each on the input that contract was given, and C charged, 100 C <= U <= 100 C + 99 n, and the meter advanced by at least C |
| Metering.RunMetes | x/wasm/internal/keeper/keeper.go:395-398 | over any run, Execute's or Instantiate's, every bill is for the gas the contract reported on its input, divided by 100 and rounded down, all bills were paid, and runs are bounded by gas |
| Metering.RunBillsAll | x/wasm/internal/keeper/keeper.go:154-159 | in a run that succeeds there are as many bills as invocations |
| Metering.ExecuteRunsBounded | x/wasm/internal/keeper/keeper.go:203-206 | a call tree runs contract code at most once per unit of gas it used |
| Affordability.InvokeBrokeIff | x/wasm/internal/keeper/keeper.go:154-159 | at any meter, an invocation is stopped by its wasm charge if and only if the storage gas fits what was left and storage gas plus charge do not |
| Affordability.RunIsAffordable | x/wasm/internal/keeper/keeper.go:386-398 | a run, Instantiate's included, panics only for gas or an unknown kind of message, and never for a wasm charge if on no occasion that can arise a run overruns what was left |
| Affordability.ExecuteNeverBroke | x/wasm/internal/keeper/keeper.go:386-398 | if on no occasion that can arise a run overruns the meter that granted its gas, no wasm charge exhausts the meter anywhere in the tree, at any depth |
| Affordability.InstantiateNeverBroke | x/wasm/internal/keeper/keeper.go:86-138 | the same for Instantiate |
| Affordability.OverrunIsReachable | x/wasm/internal/keeper/keeper.go:141-159 | conversely, any run that overruns what was left, init or handle, funded or not, does so in an actual Instantiate or Execute of some world, which ends in that panic |
| Affordability.NeverBrokeIff | x/wasm/internal/keeper/keeper.go:154-159 | no Execute and no Instantiate in any world is ever stopped by a wasm charge if and only if no run overruns on any occasion that can arise |
| Affordability.HonestContractsNeverBroke | x/wasm/internal/keeper/keeper.go:386-398 | contracts that use no more than their grant and touch no metered storage never exhaust the meter by a wasm charge |
| Counterexamples.HonestContractsCanOverrun | x/wasm/internal/keeper/keeper.go:154-159 | a concrete environment whose contracts all stay within their grants, and a world in which Execute is stopped by its wasm charge |
| Affordability.ExecutePanicsOnlyAsExpected | x/wasm/internal/keeper/keeper.go:147-152 | a call panics only for gas or for a message of unknown kind; the account of an executed contract is never missing |
| Invocations.ExecuteRunsRegisteredCode | x/wasm/internal/keeper/keeper.go:141-166 | success is the answer of the registered code on its own store, after the coins moved, shown the caller and the new balance, within the gas left |
| Invocations.InstantiateRunsRequestedCode | x/wasm/internal/keeper/keeper.go:86-125 | success of the init phase is the answer of the requested code at the drawn address, with the deposit already there |
| Invocations.ExecuteKeyByKey | x/wasm/internal/keeper/keeper.go:141-167 | any key of the flat store, there before or not, changes only if it is a counter, the entry of a code or contract that is new, or lies under the prefix of a contract that ran |
| Invocations.InstantiateKeyByKey | x/wasm/internal/keeper/keeper.go:86-138 | the same for Instantiate |
| Invocations.SendMessageMoves | x/wasm/internal/keeper/keeper.go:325-364 | a successful send message names its own contract as sender, its amounts parse, and every balance changes by just those amounts |
| Invocations.MultiSendMessageMoves | x/wasm/internal/keeper/keeper.go:366-384 | a multisend that a contract gets through is paid by that contract alone, and every balance changes by just its shares |
| Invocations.AddressStaysFree | x/wasm/internal/keeper/keeper.go:88-135 | between the account check and the final write no nested step registers the same address |
| Ownership.RunKeepsOwned | x/wasm/internal/keeper/keeper.go:113-135 | when a run succeeds only registered contracts have data, although init code writes before its contract is registered |
| Genesis.ImportUndoesExport | x/wasm/internal/keeper/genesis.go:15-71 | import of an export on an empty store never panics and restores all codes under their ids, the code counter, all contracts and all their pairs |
| Genesis.ExportIsFixedPoint | x/wasm/internal/keeper/genesis.go:35-71 | exporting the imported state gives the same sequences in the same order |
| Genesis.ImportIsCompleteIff | x/wasm/internal/keeper/genesis.go:27-30 | for any state that satisfies the registry invariant, the imported store reads as the original at every slot if and only if no instance counter was stored and only registered contracts have data |
| Genesis.ImportedStateIsSound | x/wasm/internal/keeper/genesis.go:12-32 | the registry invariant holds after an import if the accounts were created first |
| Migrations.ImportCodeEnds | x/wasm/internal/keeper/genesis.go:16-25 | one code: a panic if it cannot be stored, else the next id, and a panic if its hash is not the recorded one |
| Migrations.ImportCodesEnds | x/wasm/internal/keeper/genesis.go:16-25 | all codes: success exactly if each is wasm with its recorded hash, under consecutive ids; else the first that is not decides the panic |
| Migrations.ImportContractsEnds | x/wasm/internal/keeper/genesis.go:27-30 | all contracts: always succeeds, touches nothing else, and the last record or pair given for an address or key counts |
| Migrations.ImportEnds | x/wasm/internal/keeper/genesis.go:15-32 | any genesis state into any store: when it succeeds, and every entry afterwards |
| Migrations.ExportEnds | x/wasm/internal/keeper/genesis.go:35-71 | an export succeeds exactly if every code is there with its bytes; it lists codes 1 to the last and all contracts by ascending addresses, with their records and all pairs by ascending keys |
| Chain.DeliverKeepsInv | x/wasm/handler.go:15-40 | any transaction keeps the invariant and all entries, and advances the code counter by no more than the gas it used |
| Lives.ReachableInv | x/wasm/internal/keeper/keeper.go:76-80 | every state of every life, before or after any number of imports, satisfies the registry invariant |
| Lives.LifeIsHealthy | x/wasm/internal/keeper/genesis.go:12-32 | over any histories and restarts every code and contract entry is kept as it is, only contracts have data, and the code counter goes on |
| Lives.RestartIsHealthy | x/wasm/internal/keeper/genesis.go:12-71 | an export and import beside the accounts of all contracts keeps codes, code counter and contracts and starts with no instance drawn |
| Lives.ReachableRegistersOnce | x/wasm/internal/keeper/keeper.go:86-138 | over a whole life, restarts included, no address is ever registered twice, and the addresses registered are exactly the contracts there are |
| Lives.ReachableRoundTrip | x/wasm/internal/keeper/genesis.go:15-71 | every reachable state, also of a chain that was itself imported, survives export and import: no panic, every slot but the instance counter reads as before, and the copy exports the same again |
| Lives.ReachableOwned | x/wasm/internal/keeper/keeper.go:113-135 | in every reachable state an address that is not registered has no data |
| Lives.ReachableImportIsCompleteIff | x/wasm/internal/keeper/genesis.go:15-71 | a reachable state is imported completely if and only if no instance was drawn since the chain was last started |
| Counterexamples.CounterIsLost | x/wasm/internal/keeper/genesis.go:15-32 | a concrete history, one upload and one instantiation, whose counter is 2 before and absent after the import |
| Chain.HistoryConserves | x/wasm/internal/keeper/keeper.go:86-167 | over any history every denomination's supply is unchanged and no balance ends below zero |
| Chain.DeliverSpendsOnlyWhatItMay | x/wasm/internal/keeper/keeper.go:366-372 | a transaction takes coins only from its signers and from contracts it ran |
| Lives.ReachableIDsDiffer | x/wasm/internal/keeper/keeper.go:401-436 | any two draws since the chain was last started with ids below 2^32 have different contract ids and buffers, and different addresses unless the hash collides on those buffers |
| Chain.HistoryDrawsInOrder | x/wasm/internal/keeper/keeper.go:419-429 | over a history the ids drawn by transactions that took effect follow the counter in order, and the counter follows the last of them |
| Chain.TakenAddressBlocks | x/wasm/internal/keeper/keeper.go:88-92 | an instantiation whose next address has an account leaves the chain as it was, for every sender, message, fund and gas limit |
| Chain.TakenAddressBlocksForever | x/wasm/internal/keeper/keeper.go:86-92 | the failure undoes the counter too, so any number of further attempts at that code, and nothing else, leave the chain as it was, at any value of the counter |
| Chain.RefusedWhileCounterStands | x/wasm/internal/keeper/keeper.go:86-92 | over any history of any transactions that leaves the counter where it was, a code whose next address was taken is still refused; otherwise the account of its new next address decides |
| Chain.CounterStandsIff | x/wasm/internal/keeper/keeper.go:419-429 | a stored counter is where it was after a history if and only if the draws that took effect number a multiple of 2^64 |
| Lives.ImportForgetsInstances | x/wasm/internal/keeper/genesis.go:27-32 | after an import the counter stands at 1 whatever it was: a code whose first address is taken is refused until some instance is drawn, and at any time the account check refuses it, with gas to get that far, exactly when its address next in line has an account |
| Counterexamples.AnotherLaunchUnblocks | x/wasm/internal/keeper/keeper.go:401-407 | a concrete sound state where code 1 is refused, and succeeds under another address once code 2 was launched |
| Continuity.StepAlike | x/wasm/internal/keeper/keeper.go:298-384 | two worlds that differ in the instance counter alone do the same at every step but a launch, and still differ in it alone |
| Continuity.ExecuteAlike | x/wasm/internal/keeper/keeper.go:141-167 | in two such worlds an Execute whose tree performs no launch ends with the same outcome and data, gas, coins, entries and stores |
| Continuity.LaunchlessIff | x/wasm/internal/keeper/keeper.go:86-92 | unless a run ended for want of gas in the store, it performed no launch if and only if it drew no instance |
| Continuity.ImportedChainGoesOn | x/wasm/internal/keeper/genesis.go:15-32 | on a reachable state and on its import beside the same accounts, all later transactions that perform no launch, running out of gas included, end the same way and have the same effects |
| Keepers.Keeper.AutoIncrementID | x/wasm/internal/keeper/keeper.go:419-429 | on the flat store: the counter step, as specified |
| Keepers.Keeper.Create | x/wasm/internal/keeper/keeper.go:65-83 | on the flat store: storing a code, as specified, with every failure |
| Keepers.Keeper.ApplyWrites | x/wasm/internal/keeper/keeper.go:113-120 | a contract's writes update its own store and leave every key outside its prefix alone |
| Keepers.Keeper.Invoke | x/wasm/internal/keeper/keeper.go:154-159 | in place: parameters, run, writes and charges, as specified |
| Keepers.Keeper.ContractInstance | x/wasm/internal/keeper/keeper.go:203-222 | on the flat store: the contract's code record, or which of the two lookups failed |
| Keepers.Keeper.GenerateContractAddress | x/wasm/internal/keeper/keeper.go:401-407 | in place: the address of the next instance |
| Keepers.Keeper.Execute | x/wasm/internal/keeper/keeper.go:141-167 | in place, re-entrant: ends in exactly the world and result the specification gives |
| Keepers.Keeper.Instantiate | x/wasm/internal/keeper/keeper.go:86-138 | in place, re-entrant: ends in exactly the world and result the specification gives |
| Keepers.Keeper.DispatchMessages | x/wasm/internal/keeper/keeper.go:289-296 | the loop dispatches all messages in order, or stops at the first failure |
| Keepers.Keeper.DispatchMessage | x/wasm/internal/keeper/keeper.go:298-323 | in place: one message of any kind, as specified |
| Keepers.Keeper.SendTokens | x/wasm/internal/keeper/keeper.go:325-364 | in place: converts the tokens and sends them signed by the contract, as specified |
| Keepers.Keeper.HandleSdkMessage | x/wasm/internal/keeper/keeper.go:366-384 | the signer loop lets a message through only if every signer is the contract |
| Keepers.Keeper.Handle | x/wasm/handler.go:15-110 | in place: routing to the bank or the wasm handlers, as specified |
| StateTransfer.InitGenesis | x/wasm/internal/keeper/genesis.go:15-32 | the import loops leave the world the specification gives, or panic as it says |
| StateTransfer.SetContract | x/wasm/internal/keeper/keeper.go:259-265 | one contract's record and all its models are written, as specified |
| StateTransfer.GetNextCodeID | x/wasm/internal/keeper/keeper.go:409-417 | reads the next code id, 1 when none is stored |
| StateTransfer.ExportGenesis | x/wasm/internal/keeper/genesis.go:35-71 | the counted loop and the iterator loop produce the specified genesis state |
| StateTransfer.ListContractInfo | x/wasm/internal/keeper/keeper.go:240-251 | all contracts with their records, in ascending address order |
| StateTransfer.ReadContractState | x/wasm/internal/keeper/querier.go:108-114 | all pairs under the queried address, whatever its length, in ascending key order; for a 20-byte address the contract's own (`DataUnderAddress`) |
| StateTransfer.QueryCodeList | x/wasm/internal/keeper/querier.go:159-175 | the open-ended loop ends and lists ids 1 to the last with creator and hash |
| StateTransfer.QueryContractList | x/wasm/internal/keeper/querier.go:86-92 | all contract addresses, ascending |
| StateTransfer.QueryRaw | x/wasm/internal/keeper/keeper.go:186-201 | the one pair under a key of the queried address, whatever its length; nothing for an absent or nil key |
| StateTransfer.RawQueryAgreesWithListing | x/wasm/internal/keeper/keeper.go:186-201 | a raw query answers exactly the pairs of the full listing with that key |
| StateTransfer.EnumerationsAgree | x/wasm/internal/keeper/querier.go:159-175 | the code listing and the export enumerate the same codes in the same order, and the exported bytes are those the hash stands for |

## Left out

- Calls under an infinite gas meter: `Execute` and `Instantiate` are modelled under a finite meter, without which re-entrance need not end; genesis and queries run unmetered.
- The uint64 range of the consumed counter itself: passing the limit is a panic before that range matters.
- Bank internals: a failing multisend is taken to move nothing, vesting accounts and the overflow of an account's balance are not modelled; the bank is not part of the repository.
- The router's other modules (staking, governance and so on): a message for them reaches a route without a handler.
- gzip inflation, amino, JSON, base64 and bech32 encodings, and the address hash: library code, present as parameters or as decoded values.
- Addresses of other lengths than 20 bytes as owners of stores: the generator makes no others, and the genesis state holds no others here. Calls and queries take addresses of any length.
- QuerySmart, queryContractInfo and queryCode: a lookup or one foreign call each.
- ValidateBasic of the messages: uploading takes an arbitrary acceptance test, and the fund checks are implied by the bank's own check.
- The parameters' block height, time and chain id: fixed for a call, so part of the arbitrary contract behaviour.
- Events, log text, error wrapping, and the address Instantiate returns next to an init error: callers only look at the error.
- ListContractInfo's early stop: no caller in the repository uses it.
- app/export.go, CLI, REST, commands and deployment files.
- Keepers.Keeper.Execute: says nothing about undoing partial effects, which the keeper does not do either; undoing a failed transaction is an assumption of Chain.
- Lives.ReachableInv: asks, like the other theorems on reachable states, that successful transactions used less than 2^64 gas in all, because the code counter wraps there.
