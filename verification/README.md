# FryChain in Dafny

A model of the parts of FryChain where most can go wrong, and proofs of what they promise: the contract
virtual machines (Kaspa scripts, Pact, the register machine), block import and fork choice, Merkle trees,
account changes, the device registry, the emission schedule, and two codecs.

Where the program changes state step by step, so does the model: interpreters, parser, chain, account state
and registry are classes with the program's fields, and their methods and loops are proved to compute
functions on values. The theorems are about these functions, for every input, every run and every reachable
state.

| files | what they model |
|---|---|
| `Gas`, `Ints`, `LittleEndian`, `Arithmetic`, `Wrappers` | the gas meter; Rust's integers; numbers as bytes; facts about products and quotients; Option and Result |
| `ScriptNumber`, `KaspaOps`, `KaspaInterpreter`, `KaspaVM` | script numbers, the opcodes, the byte loop, and the VM as an object |
| `KaspaLaws`, `KaspaStructured`, `KaspaResources`, `KaspaPanics` | how stack operations undo each other; flat code against nested structure; resource bounds and gas; when a script panics |
| `PactSyntax`, `PactSemantics`, `PactVM`, `PactProperties`, `PactCapabilities`, `PactPanics` | Pact values and expressions, their big-step semantics, the mutating evaluator, and theorems about gas, depth, capabilities and panics |
| `PactText`, `PactGrammar`, `PactParser`, `PactPrinter`, `PactRun` | integers as text, what the parser computes, the parser over its cursor, a printer and the round trip, whole executions from text |
| `Chain`, `ChainProperties`, `ChainOrphans`, `ChainDelivery` | block import with store and orphan pool; invariants of every run; which orphans wait or are lost; order of delivery |
| `Merkle` | the flat tree, its proofs, completeness and soundness |
| `SbfMachine`, `SbfVM`, `SbfProperties` | the register machine, as values and as an object; halting, calls, gas, memory |
| `Accounts`, `AccountStore` | account changes, merging and genesis allocations, at one address and as objects |
| `Registry`, `Emission`, `Varuint` | the device registry, block rewards, variable-length integers |

Conventions:

- Integers are those of a release build: `+`, `-`, `*` and conversions wrap around, shift counts are masked,
  signed division truncates. A Rust panic (an index or slice out of range, or a quotient that overflows) is an outcome
  of its own, never a precondition.
- Hash functions, proof of work, signature checks, document validation and clock readings are parameters.
  Merkle soundness reads "or two of the hashed pairs collide"; the chain needs no injective hash, except that the
  blocks of a delivered chain have different hashes.
- After an error the contracts state the error, the gas used, and for Pact also tables, definitions, grants
  and the capability stack. What an abandoned Kaspa machine has on its stacks, or an abandoned Pact evaluator
  in its environment, is not stated.
- Where a promise of the program does not hold for every input, the program is modelled as it is; the model
  gives the input that breaks the promise and the exact condition under which it is kept: the least i64 as a
  script number, pushes of 65536 bytes and more, memory prices beyond 2^37 bytes, total difficulties from
  2^128 on, register programs under a gas limit of u64::MAX, memory ranges and substrings that wrap around,
  merging change sets that clash, documents that carry another device's identifier, Merkle roots of trees with
  different leaf counts, orphans that come before genesis or beside a sibling, and the height index, the head
  after a restart and the locations of transactions after a fork.

## Model

| member | source | states |
|---|---|---|
| `Gas.GasMeter.Consume` | crates/frychain-vm/src/gas.rs:95-107 | Charges an amount if the saturating sum stays within the limit; otherwise uses up the whole limit and refuses |
| `Gas.GasMeter.MakeSubMeter` | crates/frychain-vm/src/gas.rs:128-139 | A nested meter gets what was asked for, but at most 63/64 of what is left |
| `Gas.GasMeter.TakeBack` | crates/frychain-vm/src/gas.rs:142-149 | A nested meter's unused gas and its refund go back to the caller |
| `Gas.FinalUsed` | crates/frychain-vm/src/gas.rs:115-120 | The refund takes off at most half of the gas used, and nothing without a refund |
| `Gas.NestedCallConservesGas` | crates/frychain-vm/src/gas.rs:128-149 | Charging a nested call's limit and returning the rest costs the caller exactly what the call used, and leaves at least 1/64 of the gas |
| `Gas.ExpansionCostGrows` | crates/frychain-vm/src/gas.rs:173-185 | Memory never gets cheaper with its size, up to the largest size whose squared word count fits 64 bits |
| `Gas.MemoryCostTelescopes` | crates/frychain-vm/src/gas.rs:173-185 | Growing memory in two steps costs what growing it at once costs, up to that size |
| `Gas.MemoryCostWraps` | crates/frychain-vm/src/gas.rs:173-185 | One byte beyond that size the squared word count wraps around, the price drops to 3 units a word, and the growth is free |
| `Gas.ExpansionCostGrowsIff` | crates/frychain-vm/src/gas.rs:173-185 | Prices never fall up to a size if and only if its word count squares within 64 bits |
| `Gas.MemoryCostTelescopesIff` | crates/frychain-vm/src/gas.rs:173-185 | Exactly up to there, growing in two steps costs what growing at once costs; beyond, stopping at the largest priced size costs more |
| `ScriptNumber.EncodeI64` | crates/frychain-vm/src/kaspa.rs:313-337 | The byte loop computes the sign-magnitude encoding of a number |
| `ScriptNumber.DecodeI64` | crates/frychain-vm/src/kaspa.rs:339-366 | The byte loop computes the number of an element, or an error beyond eight bytes |
| `ScriptNumber.TestTrue` | crates/frychain-vm/src/kaspa.rs:369-381 | The loop decides whether a byte other than the sign bit is set |
| `ScriptNumber.RoundTripNumber` | crates/frychain-vm/src/kaspa.rs:313-366 | Decoding an encoded i64 gives it back if and only if it is not the least i64 (whose encoding takes nine bytes) |
| `ScriptNumber.EncodingIsMinimal` | crates/frychain-vm/src/kaspa.rs:313-337 | Encodings waste no byte |
| `ScriptNumber.MinimalIffCanonical` | crates/frychain-vm/src/kaspa.rs:313-366 | Encoding a decoded element gives it back if and only if the element is minimal, so every number has one minimal form |
| `ScriptNumber.TrueIffNonZero` | crates/frychain-vm/src/kaspa.rs:369-381 | An element of up to eight bytes is true exactly when its number is not zero, negative zero included |
| `KaspaVM.VM.Push` | crates/frychain-vm/src/kaspa.rs:1587-1598 | Pushes an element, or fails on a full stack or an element over 520 bytes |
| `KaspaVM.VM.DoStack` | crates/frychain-vm/src/kaspa.rs:827-963 | The stack operations, from tuck and roll to the moves between the two stacks |
| `KaspaVM.VM.DoBytes` | crates/frychain-vm/src/kaspa.rs:964-1079 | Splicing, bitwise and equality operations on elements |
| `KaspaVM.VM.DoNumber` | crates/frychain-vm/src/kaspa.rs:1081-1309 | Arithmetic and comparisons with 64-bit wrap-around |
| `KaspaVM.VM.DoTx` | crates/frychain-vm/src/kaspa.rs:1348-1524 | Signature checks against a given predicate, lock times and transaction lookups |
| `KaspaVM.VM.DoPaid` | crates/frychain-vm/src/kaspa.rs:1311-1563 | Hashing, contract state and events, with their gas |
| `KaspaVM.VM.Step` | crates/frychain-vm/src/kaspa.rs:569-1584 | One iteration of the byte loop: gas, op count, push, control flow through the condition stack, or an operation |
| `KaspaVM.VM.ExecuteScript` | crates/frychain-vm/src/kaspa.rs:550-566 | Runs a script from its start and puts script and program counter back, also on errors |
| `KaspaVM.VM.Execute` | crates/frychain-vm/src/kaspa.rs:497-547 | Magic and size checks, the unlocking script, then the locking script, and the verdict on the top element; the machine it leaves behind is stated too |
| `KaspaLaws.SwapTwice` | crates/frychain-vm/src/kaspa.rs:931-939 | Swapping twice restores the whole state |
| `KaspaLaws.RotThrice` | crates/frychain-vm/src/kaspa.rs:921-930 | Rotating three times restores the whole state |
| `KaspaLaws.DupThenDrop` | crates/frychain-vm/src/kaspa.rs:872-882 | Dropping undoes duplicating |
| `KaspaLaws.ToAltThenFromAlt` | crates/frychain-vm/src/kaspa.rs:828-841 | Moving an element to the other stack and back restores both stacks |
| `KaspaLaws.TuckIsSwapOver` | crates/frychain-vm/src/kaspa.rs:931-948 | Tuck is swap then over, wherever the stack has room |
| `KaspaLaws.NipIsSwapDrop` | crates/frychain-vm/src/kaspa.rs:883-890 | Nip is swap then drop |
| `KaspaLaws.RollAndPick` | crates/frychain-vm/src/kaspa.rs:900-920 | With the number k on top, roll takes out and pick copies exactly the element under k others, for every split of the stack |
| `KaspaStructured.FetchPush` | crates/frychain-vm/src/kaspa.rs:591-656 | A push is read with exactly its data, and the next instruction starts right behind it |
| `KaspaStructured.CodecRoundTrip` | crates/frychain-vm/src/kaspa.rs:1657-1679 | A compiled sequence of pushes (below 65536 bytes) and opcodes is read back as that sequence |
| `KaspaStructured.PushReadBackIffShort` | crates/frychain-vm/src/kaspa.rs:1658-1679 | A compiled push is read back if and only if its data is shorter than 65536 bytes |
| `KaspaStructured.LongLengthIsCut` | crates/frychain-vm/src/kaspa.rs:1668-1679 | Of longer data a reader gets only the part that the low 16 bits of the length cover |
| `KaspaStructured.StepEncoded` | crates/frychain-vm/src/kaspa.rs:569-678 | The step loop does on encoded bytes what the instruction says, and moves pc by exactly the encoded length |
| `KaspaStructured.SkipProg` | crates/frychain-vm/src/kaspa.rs:577-590 | Running over a skipped program, with everything nested in it, changes only pc, op count and gas, and restores the condition stack |
| `KaspaStructured.RunIsExec` | crates/frychain-vm/src/kaspa.rs:769-808 | Running the flat code of a structured program equals executing its if/notif/else structure directly, then running on |
| `KaspaStructured.RunIsExecEnd` | crates/frychain-vm/src/kaspa.rs:801-808 | From OP_ENDIF on, its flag comes off and the rest runs as structured execution does |
| `KaspaStructured.StructuredExecution` | crates/frychain-vm/src/kaspa.rs:550-566 | A whole script that encodes a structured program gives the same stacks, state, logs, gas and errors as structured execution |
| `KaspaResources.ApplyIsModest` | crates/frychain-vm/src/kaspa.rs:767-1563 | Every operation adds at most three elements, keeps elements within 520 bytes, and reports a stack overflow only near the stack limit |
| `KaspaResources.StepKeepsInv` | crates/frychain-vm/src/kaspa.rs:569-590 | Each step keeps both stacks within three elements per counted op |
| `KaspaResources.StacksStaySmall` | crates/frychain-vm/src/kaspa.rs:584-589 | At every point of both scripts, both stacks together hold at most 3 times the counted ops, so at most 603 elements of at most 520 bytes |
| `KaspaResources.StackOverflowUnreachable` | crates/frychain-vm/src/kaspa.rs:1587-1598 | From a fresh VM no scripts end in a stack overflow, although tuck and the moves between stacks skip the size check |
| `KaspaResources.RunSpends` | crates/frychain-vm/src/kaspa.rs:580-581 | Gas used never shrinks and never exceeds the limit |
| `KaspaResources.KaspaGasMonotone` | crates/frychain-vm/src/kaspa.rs:497-547 | An execution that completes with G gas has the same result under every limit from G on, and under every lower limit runs out of gas with exactly that limit used |
| `KaspaPanics.ApplyPanicsIff` | crates/frychain-vm/src/kaspa.rs:767-1563 | Of all operations only a substring can panic, and exactly if begin plus size pass 2^64 and wrap around to within the element; a division never does, since no element decodes to the least i64 |
| `KaspaPanics.StepPanicsIff` | crates/frychain-vm/src/kaspa.rs:569-590 | A step panics if and only if it is paid for, not skipped, and such a substring |
| `KaspaPanics.RunPanicsIff` | crates/frychain-vm/src/kaspa.rs:550-566 | A script panics if and only if its run gets to such a step |
| `KaspaPanics.CutBeforeStartPanics` | crates/frychain-vm/src/kaspa.rs:979-991 | Such a script of four bytes: the part of an empty element from -1 with size 1 |
| `PactVM.VM.Eval` | crates/frychain-vm/src/pact.rs:399-408 | The evaluator with its mutable environment, capability stack and depth counter computes the big-step semantics; capabilities are put back on success and on errors, environment and depth on success |
| `PactVM.VM.EvalForm` | crates/frychain-vm/src/pact.rs:409-642 | Every form of expression with its outcome and store; capabilities are put back on success and on errors, the environment and depth on success, and an error leaves the depth no lower |
| `PactVM.VM.EvalArgs` | crates/frychain-vm/src/pact.rs:664-668 | Arguments are evaluated in order; the first failure is the outcome |
| `PactVM.VM.EvalLet` | crates/frychain-vm/src/pact.rs:416-426 | Each binding sees the earlier ones, and the environment is put back afterwards |
| `PactVM.VM.EvalWithCap` | crates/frychain-vm/src/pact.rs:502-539 | A frame is on the stack exactly while the body is evaluated |
| `PactVM.VM.AcquireCap` | crates/frychain-vm/src/pact.rs:510-532 | A defined capability is granted by evaluating its body, once per arguments; any failure in the body counts as not granted |
| `PactVM.VM.EvalRequire` | crates/frychain-vm/src/pact.rs:541-555 | Succeeds exactly if a frame for the same capability and arguments is active |
| `PactVM.VM.EvalRead` | crates/frychain-vm/src/pact.rs:557-568 | Gas, then the key, then the row or the error for a missing table or row |
| `PactVM.VM.EvalWrite` | crates/frychain-vm/src/pact.rs:569-598 | Gas, key, row, then the row is stored; a full table refuses even to replace one |
| `PactVM.VM.DoLoadModule` | crates/frychain-vm/src/pact.rs:1098-1110 | Definitions are evaluated under the module's name; an error leaves that name set |
| `PactVM.VM.EvalApp` | crates/frychain-vm/src/pact.rs:646-1040 | Builtins come before user functions; a computed head is evaluated and refused. Only the root that sqrt takes and the order of mixed lists are abstract |
| `PactVM.VM.DoFormat` | crates/frychain-vm/src/pact.rs:1005-1026 | Each value takes the place of the first pair of braces that is left |
| `PactVM.VM.CallFunction` | crates/frychain-vm/src/pact.rs:1043-1067 | Parameters are bound over the caller's environment, which is put back |
| `PactVM.VM.RunProgram` | crates/frychain-vm/src/pact.rs:369-371 | The loop over parsed expressions, from a machine at rest to a machine at rest |
| `PactVM.VM.ParseAndExecute` | crates/frychain-vm/src/pact.rs:359-386 | The code is parsed as a whole and run, then the call data; a text that does not parse changes nothing |
| `PactProperties.GuardWidens` | crates/frychain-vm/src/pact.rs:1113-1152 | A guard that holds under some capability frames holds under more |
| `PactProperties.EvalMetered` | crates/frychain-vm/src/pact.rs:399-643 | Under a lower gas limit an evaluation is the same if it fits, and otherwise fails with exactly that limit used, out of gas or, from inside a capability's body, as a capability not granted |
| `PactProperties.PactGasMonotone` | crates/frychain-vm/src/pact.rs:359-386 | A program that completes with G gas has the same value and store under every limit from G on, and under every lower limit fails with that limit used, out of gas or with a capability not granted |
| `PactRun.ExecutionGasMonotone` | crates/frychain-vm/src/pact.rs:359-386 | The same of a whole execution, from the text of code and call data |
| `PactRun.PrintedProgramRuns` | crates/frychain-vm/src/pact.rs:359-386 | Executing the printed text of two programs as code and call data, or of both as code, is evaluating their expressions one after the other |
| `PactProperties.EvalWidens` | crates/frychain-vm/src/pact.rs:399-643 | What evaluates to a value does so unchanged inside more capability frames and at a smaller depth |
| `PactProperties.RequireSeesEnclosingFrames` | crates/frychain-vm/src/pact.rs:502-555 | Inside any nest of frames with constant arguments, a requirement that succeeds is met by an enclosing frame, and one refused for lack of the capability has none, whatever the capability bodies do |
| `PactCapabilities.ReachEvaluates` | crates/frychain-vm/src/pact.rs:409-642 | Evaluating an expression is evaluating the part of it that is reached through with-capability forms, bindings, branches and calls, inside exactly the frames entered on the way |
| `PactCapabilities.RequireSeesEnteredFrames` | crates/frychain-vm/src/pact.rs:502-555 | A requirement reached that way succeeds if and only if its capability with its arguments' values is that of a frame entered on the way or around the whole |
| `PactProperties.SelfCallEnds` | crates/frychain-vm/src/pact.rs:399-406 | A function that only calls itself ends with the depth or gas error, and has changed nothing but the gas used |
| `PactProperties.StrToIntUndoesIntToStr` | crates/frychain-vm/src/pact.rs:804-824 | str-to-int reads back every integer that int-to-str writes |
| `PactProperties.SortAscends` | crates/frychain-vm/src/pact.rs:885-895 | sort puts a list of integers, or of strings, into ascending order and keeps its elements |
| `PactPanics.BuiltinPanicsIff` | crates/frychain-vm/src/pact.rs:646-1040 | A builtin panics if and only if an argument is missing where it takes one, or the least integer is divided by -1 |
| `PactPanics.AbsOfNothingPanics` | crates/frychain-vm/src/pact.rs:734-737 | Such an application, which panics under every limit that pays for it |
| `PactPanics.SafeProgramsNeverPanic` | crates/frychain-vm/src/pact.rs:399-1067 | A program in which every builtin is applied to as many arguments as it takes, and every divisor is a constant other than -1, never panics, through calls, capabilities and modules |
| `PactPanics.OpenAnnotationPanics` | crates/frychain-vm/src/pact.rs:1315-1320 | A function definition that breaks off in its annotation makes the parser panic if and only if no parenthesis closes that |
| `PactPanics.SafeTextsNeverPanic` | crates/frychain-vm/src/pact.rs:359-386 | No execution panics whose texts have a parenthesis behind every annotation sign and parse to such programs |
| `PactGrammar.ExprAt` | crates/frychain-vm/src/pact.rs:1177-1202 | What the parser computes; every success moves strictly forward and stays within the text, and it panics only on texts with an annotation sign that no parenthesis follows |
| `PactParser.Parser.ParseExpr` | crates/frychain-vm/src/pact.rs:1177-1202 | The recursive-descent parser over its cursor computes the grammar |
| `PactParser.Parser.ParseList` | crates/frychain-vm/src/pact.rs:1204-1257 | Empty lists, special forms by keyword, applications |
| `PactParser.Parser.ParseStringValue` | crates/frychain-vm/src/pact.rs:1630-1661 | Strings with their escapes |
| `PactParser.Parser.ParseNumberAt` | crates/frychain-vm/src/pact.rs:1663-1702 | Integers and decimals as the source reads them, with its wrap-around |
| `PactParser.Parser.ParseLet` | crates/frychain-vm/src/pact.rs:1454-1481 | let and let* |
| `PactParser.Parser.ParseDefun` | crates/frychain-vm/src/pact.rs:1302-1348 | Function definitions with types, documentation and annotations; an unclosed annotation panics |
| `PactParser.Parser.ParseDefcap` | crates/frychain-vm/src/pact.rs:1350-1403 | Capability definitions; strings and annotations before the body are read over |
| `PactParser.Parser.ParseModule` | crates/frychain-vm/src/pact.rs:1259-1300 | Modules and their governance |
| `PactParser.Parser.SkipWhitespace` | crates/frychain-vm/src/pact.rs:1735-1749 | White space and comments |
| `PactParser.Parser.ParseAll` | crates/frychain-vm/src/pact.rs:1165-1175 | A whole text |
| `PactPrinter.ParsePrinted` | crates/frychain-vm/src/pact.rs:1663-1702 | Every i128, its minimum included, is read back from its digits |
| `PactPrinter.ReadString` | crates/frychain-vm/src/pact.rs:1630-1661 | Every string is read back from its escaped form |
| `PactPrinter.ReadExpr` | crates/frychain-vm/src/pact.rs:1177-1257 | Every printable expression is read back, with its exact end, at any position of any text where a delimiter or the end follows it |
| `PactPrinter.ParseAfterPrint` | crates/frychain-vm/src/pact.rs:1165-1257 | Parsing a printed list of expressions gives back exactly that list |
| `Chain.Blockchain.PutBlock` | crates/frychain-storage/src/chain.rs:24-73 | One batch writes header, body, height index, metadata and the locations of the transactions under the block's hash |
| `Chain.Blockchain.GenesisBlock` | crates/frychain-consensus/src/chain.rs:81-112 | Makes the allocations and stores the genesis block as head, once; a second time is refused without a change |
| `Chain.Blockchain.ImportBlock` | crates/frychain-consensus/src/chain.rs:162-210 | Import with its orphan pool: known blocks are ignored, orphans wait, valid blocks are stored and wake the block that waits for them |
| `Chain.Blockchain.TakePending` | crates/frychain-consensus/src/chain.rs:221-228 | The waiting block leaves the pool before its proof of work is computed and it is imported; each re-entry has a smaller pool |
| `Chain.Blockchain.StoreValid` | crates/frychain-consensus/src/chain.rs:188-204 | Total difficulty modulo 2^128, and a new head only for a larger total |
| `Chain.Blockchain.Restart` | crates/frychain-consensus/src/chain.rs:39-78 | A chain opened over an existing database takes its head from the height index, and starts without orphans and without accounts |
| `ChainProperties.ValidBlockFollows` | crates/frychain-consensus/src/validation.rs:43-73 | A valid non-genesis block is one higher than its parent and not earlier |
| `ChainProperties.AcceptMovesHead` | crates/frychain-consensus/src/chain.rs:199-204 | The head moves exactly for a strictly larger total, so the first block stored wins ties |
| `ChainProperties.ImportKeepsInv` | crates/frychain-consensus/src/chain.rs:162-228 | Every import, with all the imports it sets off, keeps the store, the ancestry, the head and the pool sound, also when it fails half-way |
| `ChainProperties.EveryRunKeepsInv` | crates/frychain-consensus/src/chain.rs:162-228 | In every run from genesis, with restarts: blocks under their own hashes, parents stored one lower and not later, indexes that lead to the block stored last, the head the first of largest total since the last start, and no orphan waiting for a stored parent |
| `ChainProperties.HeadOfOneRun` | crates/frychain-consensus/src/chain.rs:199-204 | In every run from genesis without a restart the head is the first of largest total difficulty among all stored blocks |
| `ChainProperties.EveryRunKeepsAlive` | crates/frychain-consensus/src/chain.rs:39-228 | The same in every run from an empty database, whatever is delivered before genesis and however often the chain restarts, except that until a restart one orphan may wait for genesis for ever |
| `ChainOrphans.EarlyOrphanStays` | crates/frychain-consensus/src/chain.rs:170-178 | A block that waits for genesis when that is stored is never taken from the pool without a restart |
| `ChainOrphans.EarlyOrphanIff` | crates/frychain-consensus/src/chain.rs:39-228 | In a run from an empty database an orphan waits for a stored parent if and only if a child of genesis was delivered before genesis and the chain was not restarted since |
| `ChainOrphans.EarlyOrphanWaits` | crates/frychain-consensus/src/chain.rs:162-178 | Such a run of two events |
| `ChainOrphans.PoolIsLastOrphan` | crates/frychain-consensus/src/chain.rs:170-178 | After any run from an empty database the pool's entry for a block that is not stored is the last orphan delivered for it since the last restart, so every earlier one is lost |
| `ChainOrphans.SiblingIsLost` | crates/frychain-consensus/src/chain.rs:162-228 | Such a run: of two children that arrive before their parent only the second is stored |
| `ChainProperties.WalkReachesGenesis` | crates/frychain-consensus/src/validation.rs:43-64 | From every stored block, genesis is reached in exactly `height` steps and not before |
| `ChainProperties.TotalIsWorkModulo` | crates/frychain-consensus/src/chain.rs:188-198 | Stored total difficulty is the sum along the path to genesis, modulo 2^128 |
| `ChainProperties.StoredTotalIsExactIff` | crates/frychain-consensus/src/chain.rs:188-198 | It is the true sum if and only if that sum is below 2^128 |
| `ChainProperties.HeadHasMostWork` | crates/frychain-consensus/src/chain.rs:199-204 | While all sums are below 2^128, the head is the first block of most work among those stored since the last start |
| `ChainProperties.WrappedWorkLosesTheHead` | crates/frychain-consensus/src/chain.rs:188-204 | A concrete run in which the sum wraps and the block of most work does not become head |
| `ChainProperties.IndexFollowsWalkIff` | crates/frychain-storage/src/chain.rs:44-50 | At any height the index leads to a stored block's ancestor if and only if no other block of that height was stored after the ancestor |
| `ChainProperties.IndexFollowsWalk` | crates/frychain-storage/src/chain.rs:44-50 | So the index lists the ancestors of all stored blocks if and only if no two of them share a height |
| `ChainProperties.RestartKeepsHeadIff` | crates/frychain-consensus/src/chain.rs:69-78 | A restart finds the old head if and only if no block of the head's height was stored after it |
| `ChainProperties.EveryRunRestartsIff` | crates/frychain-consensus/src/chain.rs:39-228 | After every run from genesis a restart keeps the head if and only if no block of its height was stored after it |
| `ChainProperties.EveryRunIndexesIff` | crates/frychain-storage/src/chain.rs:44-50 | After every run from genesis, for every stored block and height: the index leads to the ancestor if and only if no other block of that height was stored after it |
| `ChainProperties.RestartLosesTheHead` | crates/frychain-consensus/src/chain.rs:69-78 | A concrete run: of two blocks on top of genesis the first has more work and is head, and a restart makes the second the head |
| `ChainProperties.LookupFindsBlockIff` | crates/frychain-storage/src/chain.rs:59-70 | The location of a transaction leads to a stored block that carries it if and only if no block stored later carries it too |
| `ChainProperties.EveryRunFindsIff` | crates/frychain-storage/src/chain.rs:59-70 | The same after every run from genesis, for every stored block and transaction |
| `ChainProperties.LookupLeavesTheHead` | crates/frychain-storage/src/chain.rs:59-70 | A concrete run: two blocks on top of genesis carry the same transaction, the first is the head, and the transaction is found in the second |
| `ChainDelivery.AnyOrderStoresTheChain` | crates/frychain-consensus/src/chain.rs:162-228 | The blocks of a valid linear chain, delivered in any order with repetitions, are all stored and the pool ends empty |
| `ChainDelivery.DeliveryOrderDoesNotMatter` | crates/frychain-consensus/src/chain.rs:162-228 | Two such deliveries end in the same state: store, indexes, head, known blocks and pool |
| `Merkle.MerkleTree.FromHashes` | crates/frychain-core/src/merkle.rs:18-55 | The level loop builds the flat array of all levels of the zero-padded leaves |
| `Merkle.MerkleTree.Root` | crates/frychain-core/src/merkle.rs:75-81 | The last node is the recursive hash of the padded leaves |
| `Merkle.MerkleTree.GetProof` | crates/frychain-core/src/merkle.rs:84-119 | For every leaf, the offset walk collects exactly the siblings on its path, and the proof verifies |
| `Merkle.MerkleTree.WalkSiblings` | crates/frychain-core/src/merkle.rs:89-111 | The walk through the flat array never takes its zero fallback |
| `Merkle.Verify` | crates/frychain-core/src/merkle.rs:151-165 | The loop accepts exactly the proofs whose fold is their root |
| `Merkle.VerifyLeaf` | crates/frychain-core/src/merkle.rs:168-173 | A proof for a given leaf hash |
| `Merkle.TreeHashUp` | crates/frychain-core/src/merkle.rs:38-50 | Hashing neighbours level by level gives the recursive tree hash |
| `Merkle.FlatEndsWithRoot` | crates/frychain-core/src/merkle.rs:75-81 | The flat array of a tree with 2^d leaves has 2^(d+1)-1 nodes, the last of which is the root |
| `Merkle.PathLeadsToRoot` | crates/frychain-core/src/merkle.rs:84-165 | Completeness: the path of every leaf folds to the root |
| `Merkle.FoldIsSound` | crates/frychain-core/src/merkle.rs:151-165 | Soundness: a path of the tree's depth that folds to the root carries the leaf and the siblings named by the low bits of its index, or two of the pairs hashed in the fold and in the tree collide |
| `Merkle.AcceptedProofIsHonest` | crates/frychain-core/src/merkle.rs:151-173 | What an accepted proof of any length proves, unless two of the pairs hashed by the proof and in the tree collide: one as long as the tree is deep names a leaf, a shorter one the node that many levels below the root, a longer one a leaf with what hashes up to it; and its hashes are the path that the tree gives out for that place |
| `Merkle.EqualRootsEqualLeaves` | crates/frychain-core/src/merkle.rs:18-55 | Equal roots of equally deep trees come from equal leaves, or two of the pairs hashed in them collide |
| `Merkle.RootDeterminesLeaves` | crates/frychain-core/src/merkle.rs:18-81 | Two trees with equal leaf counts and equal roots have equal leaves, or two of the pairs hashed in them collide |
| `Merkle.EqualRootsIff` | crates/frychain-core/src/merkle.rs:18-81 | For any counts: roots are equal if and only if the padded leaves of the shallower tree are a level of the deeper one, or two of the pairs hashed in them collide |
| `Merkle.RootForgetsLeafCount` | crates/frychain-core/src/merkle.rs:26-34 | So, unless the count is a power of two, one more leaf that is zero gives the same root, also for the empty tree |
| `Merkle.RootForgetsDepth` | crates/frychain-core/src/merkle.rs:26-50 | And two leaves give the root of one leaf that is their hash, since leaves and nodes are hashed alike |
| `SbfVM.ParseElf` | crates/frychain-vm/src/sbf.rs:158-200 | Eight-byte instructions behind a 64-byte header, or a two-instruction program for an empty section |
| `SbfVM.VM.WriteMemory` | crates/frychain-vm/src/sbf.rs:549-580 | Writes exactly the low bytes of the value, or fails without a change |
| `SbfVM.VM.StepAlu` | crates/frychain-vm/src/sbf.rs:247-330 | Arithmetic on registers |
| `SbfVM.VM.StepLoad` | crates/frychain-vm/src/sbf.rs:333-356 | Loads, with the order of their failures |
| `SbfVM.VM.StepStore` | crates/frychain-vm/src/sbf.rs:359-402 | Stores, with the order of their failures |
| `SbfVM.VM.StepCall` | crates/frychain-vm/src/sbf.rs:453-489 | Calls and the two system calls, limited to 64 frames |
| `SbfVM.VM.StepJump` | crates/frychain-vm/src/sbf.rs:405-450 | Relative jumps, wrapping around |
| `SbfVM.VM.DoStep` | crates/frychain-vm/src/sbf.rs:235-507 | One step of the loop |
| `SbfVM.VM.Execute` | crates/frychain-vm/src/sbf.rs:203-232 | The run loop and its verdict, for every run that ends; under a limit below u64::MAX it ends within limit/2 + 1 steps |
| `SbfMachine.Step` | crates/frychain-vm/src/sbf.rs:235-240 | Every step keeps the sizes of registers and memory, and a step that goes on has spent at least two units of gas |
| `SbfMachine.OneMoreStep` | crates/frychain-vm/src/sbf.rs:210-222 | Running one step longer is one step after the shorter run |
| `SbfProperties.RunKeepsCallsInside` | crates/frychain-vm/src/sbf.rs:453-498 | In every run at most 64 frames, and every return address within the program or at its end |
| `SbfProperties.RunningSpends` | crates/frychain-vm/src/sbf.rs:235-240 | A run still going after n steps has spent at least 2n |
| `SbfProperties.EveryProgramHaltsIff` | crates/frychain-vm/src/sbf.rs:203-240 | Every program halts from every state if and only if the gas limit is below u64::MAX; at that limit the saturating counter lets a jump to itself run for ever |
| `SbfProperties.SbfGasMonotone` | crates/frychain-vm/src/sbf.rs:203-240 | A run that does not run out of gas and uses G is the same under every limit from G on, and runs out under every lower one with that limit used |
| `SbfProperties.StepPanicsIff` | crates/frychain-vm/src/sbf.rs:235-580 | A step panics if and only if it is paid for and either uses one of the registers 11 to 15, or slices a range of more than one byte, or one to log, whose end passes 2^64 and wraps around to within memory |
| `SbfProperties.RunPanicsIff` | crates/frychain-vm/src/sbf.rs:203-240 | A program ends in a panic if and only if its run gets to such a step |
| `SbfProperties.LoadBeforeZeroPanics` | crates/frychain-vm/src/sbf.rs:520-525 | Such a program: a load of two bytes at 2^64 - 1 as its first instruction |
| `SbfProperties.MoveToRegister11Panics` | crates/frychain-vm/src/sbf.rs:247-330 | Another: a move to register 11 |
| `SbfProperties.LoadAfterStore` | crates/frychain-vm/src/sbf.rs:510-580 | A load reads back the low bytes that a store at the same address wrote, for every width |
| `SbfProperties.LoadBesideStore` | crates/frychain-vm/src/sbf.rs:510-580 | A load of another range reads what was there before |
| `SbfProperties.DecodeEncoded` | crates/frychain-vm/src/sbf.rs:89-100 | Every instruction is decoded from its encoding |
| `SbfProperties.ParseReadsEncoded` | crates/frychain-vm/src/sbf.rs:158-200 | An encoded program behind a header is parsed back, whatever fewer than eight bytes follow |
| `SbfProperties.SubUndoesAdd` | crates/frychain-vm/src/sbf.rs:248-288 | Wrapping subtraction undoes addition, and negation itself |
| `SbfProperties.DivModRebuild` | crates/frychain-vm/src/sbf.rs:256-295 | Quotient and remainder make up the dividend |
| `SbfProperties.ShiftBack` | crates/frychain-vm/src/sbf.rs:277-284 | A right shift undoes a left shift that loses no bit, and only the low six bits of a count matter |
| `AccountStore.ChangeSet.Merge` | crates/frychain-core/src/state.rs:178-190 | Merging in place: later modifications win, lists are joined, storage writes are joined per account |
| `AccountStore.AccountState.SetAccount` | crates/frychain-core/src/state.rs:231-237 | An empty account is removed, any other stored |
| `AccountStore.AccountState.Transfer` | crates/frychain-core/src/state.rs:250-270 | Moves the amount or fails with its error and no change; the sum of all balances stays |
| `AccountStore.TransferConserves` | crates/frychain-core/src/state.rs:250-270 | A successful transfer changes two balances by the amount and nothing else, and keeps the sum of all balances |
| `AccountStore.AccountState.SetCode` | crates/frychain-core/src/state.rs:273-287 | Code and its hash at one address; no other address changes |
| `AccountStore.AccountState.ApplyChanges` | crates/frychain-core/src/state.rs:312-332 | At every address: modification, deletion, creation, storage writes, in this order; no stored account is ever empty. Of modified accounts with one address, listed under other keys, any may come last |
| `AccountStore.AccountState.Allocate` | crates/frychain-consensus/src/chain.rs:92-101 | The loop over the genesis allocations |
| `AccountStore.AllocationsAddUp` | crates/frychain-consensus/src/chain.rs:92-101 | From an empty state every allocated address has the balance of its last allocation, any other none, and allocations to different addresses add up to the sum of all balances |
| `Accounts.MergedAt` | crates/frychain-core/src/state.rs:178-190 | What a merged set does at an address, from what its parts do there |
| `Accounts.MergeIsSequenceUnlessClash` | crates/frychain-core/src/state.rs:178-332 | Applying a merge is applying the sets in turn, provided the second modifies nothing the first deleted or created and deletes nothing the first created or wrote to |
| `Accounts.MergeIsSequenceIff` | crates/frychain-core/src/state.rs:178-332 | For code hashes that are never zero: it is, from any state, if and only if the two sets are harmless at every address, a condition on the sets alone |
| `Accounts.ContractMergesIff` | crates/frychain-core/src/state.rs:178-332 | That condition for accounts and code |
| `Accounts.StorageMergesIff` | crates/frychain-core/src/state.rs:178-332 | That condition for storage: what the second set deletes, the first wrote only where the second writes again |
| `Accounts.MergeCanLoseAnAccount` | crates/frychain-core/src/state.rs:178-332 | A concrete clash: an account deleted by the first set and written by the second is lost by the merge |
| `Registry.DeviceRegistry.RegisterDevice` | crates/frychain-depin/src/registry.rs:128-167 | Stores device and document and lists the device in both indexes, or fails without a change |
| `Registry.DeviceRegistry.ChangeStatus` | crates/frychain-depin/src/registry.rs:217-244 | Activation and suspension by the owner only |
| `Registry.DeviceRegistry.DeregisterDevice` | crates/frychain-depin/src/registry.rs:247-274 | Removes device, document and both index entries |
| `Registry.DeviceRegistry.ReplaceDocument` | crates/frychain-depin/src/registry.rs:277-298 | Stores the new document and its hash |
| `Registry.DeviceRegistry.GetDevicesByOwner` | crates/frychain-depin/src/registry.rs:185-194 | Finds exactly the devices a filter over the main map would, each once |
| `Registry.DeviceRegistry.GetDevicesByType` | crates/frychain-depin/src/registry.rs:197-206 | Likewise by type |
| `Registry.EveryRunIsIndexed` | crates/frychain-depin/src/registry.rs:128-298 | After every run of operations both indexes list exactly the registered devices, documents and devices share their keys, and hashes match the documents |
| `Registry.OwnerLookupIsFilter` | crates/frychain-depin/src/registry.rs:185-194 | A lookup by owner in any state of a run is a full filter without duplicates |
| `Registry.KindLookupIsFilter` | crates/frychain-depin/src/registry.rs:197-206 | Likewise by type |
| `Registry.DocumentOfAnother` | crates/frychain-depin/src/registry.rs:277-298 | An update keeps the records sound, and the stored document carries the device's identifier if and only if the new document does |
| `Registry.DocumentsCarryKeysIff` | crates/frychain-depin/src/registry.rs:128-298 | After any run all documents carry the identifiers they are stored under if and only if, for every device, the last update since its registration carried its identifier |
| `Registry.DocumentOfAnotherDevice` | crates/frychain-depin/src/registry.rs:277-298 | A concrete run: the owner of a device replaces its document by that of another device |
| `Emission.RewardNeverRises` | crates/frychain-core/src/config.rs:183-189 | A later block never earns more |
| `Emission.IssuedByEras` | crates/frychain-core/src/config.rs:183-189 | All rewards below a height, as whole eras and a part of one |
| `Emission.IssuedBelowTwiceFirstEra` | crates/frychain-core/src/config.rs:183-189 | At every height less than twice the initial reward times the interval has been issued |
| `Emission.SupplyNeverReached` | crates/frychain-core/src/config.rs:112-114 | Neither main nor test network ever reaches its maximum supply |
| `Varuint.WriteVaruint` | crates/frychain-vm/src/avm.rs:573-585 | The encoder loop |
| `Varuint.ReadVaruint` | crates/frychain-vm/src/avm.rs:506-536 | The decoder loop, with its errors |
| `Varuint.DecodeEncoded` | crates/frychain-vm/src/avm.rs:506-536 | Every u64 is read back at the offset of its encoding, whatever surrounds it, with exactly the encoding's length, at most ten bytes |
| `Varuint.DecodedIsEncodingIff` | crates/frychain-vm/src/avm.rs:506-536 | What was read is the encoding of its value if and only if no group is wasted and no bit lies beyond the 64th |

## Left out

- SbfVM.VM.Execute: says nothing of runs that never end, which there are only under a gas limit of u64::MAX; SbfProperties.EveryProgramHaltsIff shows that this is the exact condition.
- PactVM.VM.EvalApp: the floating-point root that sqrt takes, what sort makes of lists that mix integers or strings with other values, on which its comparison is no order, the serialised size of a hashed value and the debug text of a formatted one are given functions.
- PactVM.VM.EvalForm: how far above its start the depth is after an error is not stated.
- PactVM.VM.ParseAndExecute: starts from text; the magic bytes and the decoding of UTF-8 before it are left out.
- PactGrammar.ExprAt: the text is ASCII, so that byte positions are character positions.
- PactPrinter.ParseAfterPrint: constants other than integers, truth values, strings and the empty list, governance by capability, and names that read as numbers or annotations have no printed form.
- ChainDelivery.DeliveryOrderDoesNotMatter: linear chains only; ChainOrphans.PoolIsLastOrphan shows why forks do not have the property.
- PactProperties.RequireSeesEnclosingFrames: frames directly inside each other with constant arguments; PactCapabilities.RequireSeesEnteredFrames is about frames entered through bindings, branches and calls.
- Accounts.MergeIsSequenceIff: assumes that no code hashes to zero; MergeIsSequenceUnlessClash does not.
- Emission.IssuedBelowTwiceFirstEra: an interval of zero, which the program would divide by, is excluded.
- Varuint.ReadVaruint: joins groups of bits by addition, which is what `|` does on bits that do not overlap.
- KaspaVM.VM.Step: the position that OP_CODESEPARATOR records is never read, and not modelled.
- Serialisation, RocksDB, locks and concurrent maps: the store is a set of maps written in one batch.
- Receipts, and errors of the database.
- Difficulty adjustment, targets of difficulties, hash rates and other floating-point code.
- The AVM interpreter apart from its variable-length integers, and the assemblers of the script languages apart from pushes.
- The register machine's accounts and stack memory, which no instruction reaches.
- The sparse Merkle tree, which is a hash over sorted entries.
- Mutable access to a registered device from outside the registry, which could change an indexed field.
- Error texts: errors are named, not worded.
- Network, RPC, command line, miner, wallet and configuration files.
