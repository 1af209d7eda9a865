# A model of libpcap's filter compiler

The repository vendors libpcap 0.9.8. Its packet-filter compiler turns a boolean filter expression into
a graph of basic blocks by backpatching, analyses and rewrites that graph, and lays it out as a classic
BPF instruction array; on Linux the array is rewritten once more for the kernel. This project models
those stages and proves that each of them preserves the verdict on every packet, with the analyses they
rely on proved exact; where a stage does not, it shows the input and states the condition. It also models
the ordered interface list.

* `Collections`: optional values, sequences without repetitions.
* `Words`, `Arithmetic`: 32-bit words as numbers, and what the machine's operations and tests compute.
* `Machine`, `Atoms`, `ClosedGraph`: the BPF machine (A, X, sixteen scratch words, 32-bit wrap-around,
  total shifts), runs of block graphs, and graphs of self-contained blocks.
* `FilterExpr`, `Backpatch`: expressions, and their code by sense-threaded exit lists.
* `ArithCode`, `ArithGen`, `Relations`: arithmetic operands, scratch registers, comparisons.
* `FrameTests`, `Mpls`: byte-string comparisons and MPLS label stacks; `FieldValues`, `MplsFrames`: fields and frames
  in numbers.
* `Paths`, `Levels`, `Liveness`: levels, dominators, edge dominators, closure, use-def sets.
* `ValueNumbers`, `ValueTable`, `Numbering`, `NumberingPass`, `LocalNumbers`, `Allocation`: value numbering,
  its one error, and the numbers it may use.
* `DeadStores`, `Peephole`, `PeepholePass`: statement rewrites; `ConstantFolding`, `PeepRewrites`: those that must be
  made, and to what; `Exactness`: the analyses and conditions behind the rewrites in other words.
* `Sweep`, `SweptClosed`, `LostAtoms`: numbering and statement rewrites together, in the order of `opt_blk`, and
  what they may lose; `SharedLoad` and `StaleLiveness`: a filter they are right on and one they are wrong on.
* `BranchTests`, `EdgeMoves`, `BranchMoves`: moving edges past decided tests.
* `TestChains`, `Pullup`, `PullPass`: reordering chains of tests.
* `InternBlocks`: merging equal blocks.
* `Layout`, `Convert`: the instruction array and long jumps.
* `Pipeline`, `Optimizer`: the stages composed, from expression to array; `FirstLoop`, `BpfOptimize`: the two loops
  of the optimizer for any number of turns, and the compiler around them.
* `PlainBlocks`, `PlainFilters`: filters on which the first loop is right; `FieldBlocks`, `FieldFilters`: filters on
  which the whole compiler is.
* `KernelFilter`: the rewrite for the Linux kernel.
* `InterfaceOrder`, `InterfaceList`: the interface list.

A block graph is a sequence of blocks; a pointer to a block is its index. A run ends in `Return(k)` or
`Abort` (a load out of range, a division by zero). `bpf_filter` is not part of the repository, so the
machine is this project's own definition, with the encodings of `pcap-bpf.h`. What the machine sees of a
packet is a function from sizes and addresses to values.

## What is assumed where

* Rewrites may delete or skip loads and divisions, so their theorems speak of runs of the original that
  do not abort. The pull-ups reorder tests: there the verdicts are equal unless a block aborts and one of
  the two runs does. Backpatching, interning and layout preserve aborts too.
* `Sweep` uses liveness as `opt_loop` does, computed before the sweep that numbers and rewrites. The other
  passes are proved against analyses freshly computed for the graph they work on; the source's `opt_blks`
  goes on using dominators, numbers and predecessor lists after its own edits have made them stale.
* The theorems about the loops, `FirstLoop.Loop` and `BpfOptimize.BpfOptimize`, return the graphs between the turns
  and what each turn went by, say of each turn that it leads from one graph to the next (`FirstLoop.TurnOf`,
  `BpfOptimize.RewritingOf`), and speak of the runs that every turn does right by, under the conditions listed here
  and below. What those conditions come to is proved for two classes of filters. If X is dead after every indexed
  load and nothing is tested against all bits, as in everything the generators modelled here emit but
  `jset #0xffffffff`, the first loop is right on every packet on which no test aborts (`PlainFilters.PlainLoop`,
  `BpfOptimize.CompilePlain`). If moreover the tests only load fields and constants, mask and compare, as those of
  `gen_ncmp` do, both loops are right on those packets for any number of turns, and numbering never fails
  (`FieldFilters.CompileFields`).
* `opt_j` and the pull-ups are proved for graphs of self-contained blocks: a block reads only what it has
  written itself, or slots that only the root writes. Backpatched filters are such graphs
  (`Optimizer.FinishedGenerated`), and so are the blocks of comparisons (`Relations.RelTestClosed`).
* Value number 0 means "unknown", but the source treats it as an ordinary number. The theorems about
  numbering are for any graph in which no statement reads an atom numbered 0, graphs already rewritten
  included; self-contained blocks never do (`NumberingPass.ClosedReadsKnown`).
* The constant-index rewrite of `opt_peep` needs X not to be read after the load it folds before X is
  written again, which the source says it does not check. The theorems ask it of those sequences only.
  Comparison blocks have that property when generated (`Relations.RelTestFresh`).
* Liveness does not count what "return A" reads. A block that returns A is sound exactly when it defines A
  or uses it (`Liveness.ReturnAExact`); the generator only emits constant returns.
* Offsets into a frame are below 2^32, as a BPF instruction's are.

## What the code does not meet

* A sweep deletes dead stores by the liveness of the graph before numbering, and empties a block that leaves
  A and X with their numbers. When numbering has made that block rely on its predecessor, the load it relies
  on may be gone already. `StaleLiveness.SweepIsWrong`: the filter `ether[k] = j or ether[k] > k` ends up
  comparing the byte with 0 instead of k. The condition is `Sweep.NothingLost`, a matter of the numbered graph:
  no block gives up an atom that is live after it once numbering is done. With it the verdict is kept
  (`Sweep.SweptRun`), whatever live-out sets the sweep goes by. `ip or arp` and every other pair of tests of one
  field meet it (`SharedLoad.SweepIsRight`), and so does every sweep that does not rewrite
  (`Sweep.NoNewReadsSpares`). The converse is proved where it is local: what an emptied block needs is exactly
  what its branch reads, constant tests aside (`LostAtoms.EmptiedExact`), and an emptied test of A against an X
  that its predecessor no longer sets goes astray from some X exactly when the A it sees can be compared both
  ways (`LostAtoms.LostTestGoesAstray`). For a whole graph it does not hold: what is lost may turn out not to
  make a difference further on.
* `jset #0xffffffff` is taken to succeed always. `Peephole.FullMaskIsWrong` runs `opt_peep` on the code of
  `ip[k:4] & 0xffffffff = 0`; `Peephole.OptPeep` states exactly when the successor changes, in terms of the
  block it is given.
* `fix_program` subtracts the header from the constant part of an indexed load only. If the index wraps
  the address round into the header the kernel reads elsewhere: `KernelFilter.WrappedProgram` is such a
  filter, `KernelFilter.IndexedExact` the exact condition for a load, `KernelFilter.FixedRun` the
  equivalence for all runs that meet it.

## Model

| member | source | states |
|---|---|---|
| `FilterExpr.CodeCorrect` | src/main/jni/gencode.c:525-553 | code laid out with known continuations leaves for the true or the false one exactly as the expression evaluates, short-circuit and with aborts |
| `FilterExpr.CodeForward` | src/main/jni/gencode.c:525-553 | every branch of such code leads forward, inside the expression or out of it |
| `Backpatch.ListShape` | src/main/jni/gencode.c:451-485 | the true and the false list of every expression are both headed by the newest block, stay inside the expression and have no repetitions |
| `Backpatch.ListMembers` | src/main/jni/gencode.c:451-485 | a block is on the true (false) list exactly when one of its exits leaves the expression as true (false) |
| `Backpatch.NotFragment` | src/main/jni/gencode.c:548-553 | swapping the newest block's sense turns the partly resolved code of e into that of not e |
| `Backpatch.ConjFragment` | src/main/jni/gencode.c:525-535 | patching the true list and merging the false lists conjoins two fragments |
| `Backpatch.OrFragment` | src/main/jni/gencode.c:537-546 | patching the false list and merging the true lists disjoins two fragments |
| `Backpatch.FilterCorrect` | src/main/jni/gencode.c:488-523 | for every expression, packet and start state the finished acyclic graph returns snaplen, returns 0 or aborts exactly as the expression is true, false or aborts |
| `Backpatch.FinishedShape` | src/main/jni/gencode.c:488-523 | the finished graph is acyclic and every block of it is self-contained |
| `Backpatch.Generator.Backpatch` | src/main/jni/gencode.c:451-468 | exactly the exits on the threaded list are set to the target |
| `Backpatch.Generator.Merge` | src/main/jni/gencode.c:473-485 | the second list is appended at the end of the first, nothing else changes |
| `Backpatch.Generator.GenNot` | src/main/jni/gencode.c:548-553 | the arena now holds a well-formed fragment for the negation |
| `Backpatch.Generator.GenAnd` | src/main/jni/gencode.c:525-535 | the arena now holds a well-formed fragment for the conjunction; other blocks are untouched |
| `Backpatch.Generator.GenOr` | src/main/jni/gencode.c:537-546 | the arena now holds a well-formed fragment for the disjunction; other blocks are untouched |
| `Backpatch.Generator.Compile` | src/main/jni/gencode.c:525-553 | any and/or/not tree becomes a well-formed fragment at the end of the arena, earlier blocks untouched |
| `Backpatch.Generator.FinishParse` | src/main/jni/gencode.c:488-523 | the fragment becomes a finished filter with its root at the first block |
| `ArithCode.CodeRight` | src/main/jni/gencode.c:5547-5937 | the code of any placed arithmetic expression leaves its value (mod 2^32) in its register, aborts exactly when the expression has no value, and writes no register in use |
| `ArithCode.FetchRight` | src/main/jni/gencode.c:5622-5777 | the loads for link, network and transport offsets fetch the item the offset means and write no register |
| `FieldValues.SizesAre` | src/main/jni/gencode.c:5576-5604 | the sizes of a load are 1, 2 and 4, and name loads of so many bytes |
| `FieldValues.NumberSpells` | src/main/jni/gencode.c:5622-5777 | a field's value is the big-endian number its bytes spell |
| `FieldValues.LinkLoad` | src/main/jni/gencode.c:5622-5777 | on a frame, a load of n bytes at k is worth the number those bytes spell, and nothing if they are not all there |
| `FieldValues.NetworkLoad` | src/main/jni/gencode.c:5622-5777 | the same at the sum of offset and network header, modulo 2^32 |
| `FieldValues.TransportLoad` | src/main/jni/gencode.c:5622-5777 | and behind the IPv4 header that starts there |
| `FieldValues.HeaderFound` | src/main/jni/gencode.c:1434-1480 | that header has four octets for each of the low four bits of its first one, if that is there |
| `ArithGen.Registers.AllocReg` | src/main/jni/gencode.c:5946-5962 | the next free register going round, taken; failure exactly when all sixteen are used |
| `ArithGen.Registers.FreeReg` | src/main/jni/gencode.c:5968-5973 | exactly that register becomes free |
| `ArithGen.Registers.GenLoadi` | src/main/jni/gencode.c:5870-5890 | takes one free register and loads the constant into it |
| `ArithGen.Registers.GenLoadlen` | src/main/jni/gencode.c:5854-5868 | takes one free register and loads the packet length into it |
| `ArithGen.Registers.GenLoad` | src/main/jni/gencode.c:5576-5806 | takes a register before giving back the index's; fails exactly when none is free or the size is not 1, 2 or 4 |
| `ArithGen.Registers.GenNeg` | src/main/jni/gencode.c:5892-5908 | negates in the operand's own register |
| `ArithGen.Registers.GenArth` | src/main/jni/gencode.c:5910-5937 | gives both operands' registers back, then takes one for the result |
| `ArithGen.Registers.GenExpr` | src/main/jni/gencode.c:5576-5937 | an operand compiles exactly when its sizes are right and its register need fits the free registers; exactly its own register is added to those in use |
| `Relations.RelTestRight` | src/main/jni/gencode.c:5808-5852 | from any state a comparison's own test goes true exactly when the comparison holds of the operands' values |
| `Relations.RelTestClosed` | src/main/jni/gencode.c:5808-5852 | a comparison's block is self-contained |
| `Relations.RelTestFresh` | src/main/jni/gencode.c:5808-5852 | a comparison's block never reads X after an indexed load before writing it again, whatever is live out |
| `Relations.GenRelation` | src/main/jni/gencode.c:5808-5852 | builds that test, reversed if asked, and gives both registers back |
| `Relations.CompileRelation` | src/main/jni/gencode.c:5808-5852 | a whole comparison compiles exactly when both operands fit, decides comparison xor reversed on every packet, and leaves the register table as it was |
| `FrameTests.NcmpDecides` | src/main/jni/gencode.c:655-679 | the test compares the masked field, an ordering the other way round if reversed, and aborts exactly when the field is out of range |
| `FrameTests.GenBcmp` | src/main/jni/gencode.c:610-647 | for every nonempty byte string the word, half-word and byte tests accept exactly the frames that hold it at the offset, and abort on frames too short |
| `Mpls.LinkLayer.GenMpls` | src/main/jni/gencode.c:6721-6785 | the n-th mpls primitive tests the frame type or the bottom-of-stack bit above, and the label if one is given; the network offset moves by 4 |
| `Mpls.LinkLayer.GenMplsLinktypeIp` | src/main/jni/gencode.c:3360-3374 | below labels, ip tests the bottom-of-stack bit set and version 4 |
| `Mpls.TestsDescribeFrame` | src/main/jni/gencode.c:6721-6785 | the primitives' tests together hold exactly of frames with that label stack, its last entry and only that one marked bottom, and IPv4 inside |
| `Mpls.CompileMplsIp` | src/main/jni/gencode.c:2141-2147 | for any n, mpls L1 && ... && mpls Ln && ip accepts exactly those frames |
| `MplsFrames.FrameSpelled` | src/main/jni/gencode.c:6721-6785 | those frames octet by octet: 88 47 at 12, then entries of 20-bit labels, the bit of value 256 in the last one only, then an octet 40 to 4f |
| `Levels.Analysis.FindLevelsR` | src/main/jni/optimize.c:216-240 | everything reached gets its exact level and is on its level's list; nothing outside a closed set is touched |
| `Levels.Analysis.FindLevels` | src/main/jni/optimize.c:245-253 | exactly the reachable blocks are levelled, levels are exact and fall along every edge, the root is highest |
| `Levels.Analysis.FindDom` | src/main/jni/optimize.c:258-287 | dom of each reachable block is exactly the blocks on every path from the root |
| `Levels.Analysis.FindEdom` | src/main/jni/optimize.c:289-328 | edom of each reachable edge is exactly the edges on every path from the root that ends with it |
| `Levels.Analysis.FindClosure` | src/main/jni/optimize.c:334-357 | closure of each reachable block is exactly the reachable blocks that reach it |
| `Atoms.ValueFrame` | src/main/jni/optimize.c:365-403 | the value a statement computes depends only on the atoms atomuse names |
| `Atoms.ExecFrame` | src/main/jni/optimize.c:411-439 | a statement changes only the atom atomdef names |
| `Exactness.UseExact` | src/main/jni/optimize.c:365-403 | atomuse names no atom in vain: changing any of them can change what the statement computes |
| `Exactness.BranchUseExact` | src/main/jni/optimize.c:448-504 | nor is an atom counted as read by a branch in vain |
| `Liveness.ComputeLocalUd` | src/main/jni/optimize.c:448-504 | one forward scan gives the def, use and kill sets |
| `Liveness.LocalIsLive` | src/main/jni/optimize.c:448-534 | use plus out minus kill is liveness stated backwards |
| `Liveness.UseDef.FindUd` | src/main/jni/optimize.c:510-534 | in_use and out_use solve the liveness equations of every levelled block |
| `Liveness.SolutionUnique` | src/main/jni/optimize.c:510-534 | the liveness equations of an acyclic graph have one solution, so in_use and out_use are its liveness |
| `Liveness.LivenessSound` | src/main/jni/optimize.c:510-534 | states that agree on in_use(b) give the same verdict from b, unless a block returns an A it neither defines nor uses |
| `Liveness.ReturnAExact` | src/main/jni/optimize.c:480-504 | at a block that returns A, states that agree on in_use give the same outcome on every packet exactly when the block defines A or uses it before |
| `DeadStores.OptDeadstores` | src/main/jni/optimize.c:1139-1184 | exactly the stores redefined before use, or neither used nor live out, are deleted; every atom but those last defined by one keeps its value, so every live-out atom and every atom the branch reads does |
| `Exactness.DeadIsNotLive` | src/main/jni/optimize.c:1139-1184 | a statement is deleted exactly if the atom it defines is not live behind it, by liveness stated backwards |
| `DeadStores.CleanedRun` | src/main/jni/optimize.c:1165-1184 | deleting dead stores in all blocks of a graph preserves its verdict |
| `ValueTable.ValueTable.F` | src/main/jni/optimize.c:576-607 | the hash table refines the injective map from keys to numbers: an old key gives its number, a new key the next one |
| `ValueTable.ValueTable.InitVal` | src/main/jni/optimize.c:566-573 | the table is empty |
| `ValueNumbers.InternProper` | src/main/jni/optimize.c:576-607 | no key has two numbers, and numbers are built from older ones |
| `ValueNumbers.OptStmt` | src/main/jni/optimize.c:951-1137 | at most two new numbers for a statement, none for a deleted one |
| `ValueNumbers.OptStmtRight` | src/main/jni/optimize.c:609-677 | folding, strengthening and deleting leave the state after each statement unchanged, and the new numbers explain it |
| `Arithmetic.AluRight` | src/main/jni/optimize.c:624-677 | each operation in terms of the numbers words stand for: sum, difference and product modulo 2^32, quotient rounded down, bit by bit and/or, multiplication and division by powers of two for shifts, 0 for shifts by 32 or more; no value exactly for a division by zero |
| `Arithmetic.CompareRight` | src/main/jni/optimize.c:915-936 | tests compare those numbers, and jset asks for a common bit |
| `ConstantFolding.FoldRight` | src/main/jni/optimize.c:624-677 | folding loads the number the operation computes, or is an error exactly for a division by zero |
| `ConstantFolding.ConstantOperand` | src/main/jni/optimize.c:1014-1047 | an operation on a known A with a constant is folded, or deleted if it adds, shifts by or joins 0 |
| `ConstantFolding.ZeroConstant` | src/main/jni/optimize.c:1022-1041 | adding, shifting by or joining a constant 0 is deleted and multiplying by or masking with it loads 0, whatever A is |
| `ConstantFolding.ConstantX` | src/main/jni/optimize.c:1049-1072 | with X known too it is folded, with X alone it becomes an operation with a constant |
| `ConstantFolding.ZeroA` | src/main/jni/optimize.c:1073-1098 | adding or joining X to 0 is a transfer, any other operation on 0 but subtraction is 0 |
| `ConstantFolding.KnownIndex` | src/main/jni/optimize.c:969-984 | a known index makes an indexed load an absolute one, at the sum modulo 2^32 |
| `ConstantFolding.KnownNegated` | src/main/jni/optimize.c:1004-1012 | a known A is negated at once, modulo 2^32 |
| `ConstantFolding.KnownSlot` | src/main/jni/optimize.c:1105-1127 | a known memory word is loaded as a constant |
| `ConstantFolding.DeletedExactly` | src/main/jni/optimize.c:609-621 | a load, store or transfer is deleted exactly when it changes no number |
| `Numbering.BlockRight` | src/main/jni/optimize.c:1234-1237 | a block none of whose statements reads an unknown atom is numbered without error if it does not abort, and rewritten it leads to the same exit state, which the exit numbers explain |
| `Numbering.ExecutedExplained` | src/main/jni/optimize.c:1186-1239 | in any graph, also one already rewritten, for each packet one assignment of values to numbers explains every known number at entry and exit of every executed block, across joins |
| `Numbering.NumberedRun` | src/main/jni/optimize.c:1605-1619 | a numbering pass over any such graph, rewriting or not, preserves the verdict |
| `Numbering.RewritingShortens` | src/main/jni/optimize.c:951-1137 | rewriting a block never adds a statement |
| `LocalNumbers.FailureIsAbort` | src/main/jni/optimize.c:645-649 | a block at which numbering stops with an error aborts in every state its entry numbers explain |
| `LocalNumbers.FailedBlockAborts` | src/main/jni/optimize.c:645-649 | a pass over self-contained blocks stops only at a block that aborts on every packet |
| `NumberingPass.JoinPreds` | src/main/jni/optimize.c:1204-1233 | a number survives a join exactly when all predecessors leave it |
| `NumberingPass.FindInedges` | src/main/jni/optimize.c:1653-1673 | the predecessor lists hold one entry per edge out of a reachable block |
| `NumberingPass.OptBlks` | src/main/jni/optimize.c:1605-1619 | the sweep numbers every reachable block of any levelled graph from its predecessors' exits, two numbers a statement and one a block at most, or stops at a block that cannot be numbered |
| `NumberingPass.ClosedReadsKnown` | src/main/jni/optimize.c:1186-1239 | in a graph of self-contained blocks no statement reads an atom numbered 0 |
| `Allocation.CostWithin` | src/main/jni/optimize.c:2029-2041 | the numbers a pass over what is left of a graph can use stay within three a statement and branch of the reachable blocks of the first graph |
| `Exactness.AllocatedThrice` | src/main/jni/optimize.c:2029-2041 | what is allocated is three numbers for each instruction the reachable blocks make without long jumps |
| `Allocation.NeverOverrun` | src/main/jni/optimize.c:2029-2041 | so no later pass overruns the one allocation of opt_init |
| `Peephole.ThisOp` | src/main/jni/optimize.c:679-686 | the next real statement |
| `Peephole.StoreReload` | src/main/jni/optimize.c:728-737 | st M[k]; ldx M[k] does what st M[k]; tax does |
| `Peephole.LoadTransfer` | src/main/jni/optimize.c:738-747 | ld #k; tax does what ldx #k; txa does |
| `Peephole.IndexFolded` | src/main/jni/optimize.c:748-826 | folding a constant index into the load changes nothing but X, and not X if it is written again |
| `Peephole.PeepAt` | src/main/jni/optimize.c:711-827 | the rewrite made at a pair of statements, case by case; it keeps all atoms but an X that is dead after the folded load, and leaves later sequences to be folded as they were |
| `Peephole.PeepLoop` | src/main/jni/optimize.c:710-827 | the loop computes the rewrites from the first pair on, keeps all atoms but a dead X, brings no deleted statement back, and ends at the last real statement |
| `Peephole.TailGoesSame` | src/main/jni/optimize.c:828-897 | subtract-then-compare and mask-then-compare become tests that go the same way modulo 2^32, branches swapped for the mask |
| `Peephole.FoldJsetExact` | src/main/jni/optimize.c:898-907 | deciding jset by its mask changes the successor exactly for a full mask with A = 0 and different targets |
| `Peephole.FullMaskIsWrong` | src/main/jni/optimize.c:888-907 | opt_peep sends the code of ip[k:4] & 0xffffffff = 0 to its false branch when the word is 0 |
| `Peephole.FoldConstantRight` | src/main/jni/optimize.c:908-942 | a test of a known constant is decided as it would go |
| `Peephole.OptPeep` | src/main/jni/optimize.c:698-943 | the rewritten block is that of the rewrites in order; all atoms are kept but A if the tail is rewritten and X if an index was folded for good, and the successor is the same except exactly when the given block tests all bits, by jset or by mask and comparison with 0, A is 0 and the targets differ |
| `PeepRewrites.PeepReduced` | src/main/jni/optimize.c:710-747 | the loop leaves no store with a reload of the same word behind it, and no constant loaded to be transferred |
| `PeepRewrites.IndexGoes` | src/main/jni/optimize.c:748-826 | a constant index, in front of a header length or not, goes into the load, modulo 2^32, whenever X is not wanted afterwards |
| `PeepRewrites.TailGoes` | src/main/jni/optimize.c:828-897 | a subtraction of a constant or a known X, of any X before a comparison with 0, and a mask before one, are deleted if nobody else wants A |
| `PeepRewrites.TestsDecided` | src/main/jni/optimize.c:898-942 | a test of a constant A against a constant, and one of no bits, are left with one target |
| `Peephole.LostIsDead` | src/main/jni/optimize.c:755-763 | neither A nor X is given up if live out |
| `PeepholePass.ConstNotAluLast` | src/main/jni/optimize.c:908-913 | when A's exit number is constant the last statement numbering leaves is not arithmetic |
| `PeepholePass.PeepedRun` | src/main/jni/optimize.c:1234-1275 | numbering with rewriting, then peephole rewriting of every block against liveness, preserves the verdict of every run whose tests of all bits find a bit |
| `PeepholePass.PeepAll` | src/main/jni/optimize.c:1272-1275 | opt_peep on every live block of a numbered graph meets that theorem's hypothesis and adds no statement |
| `Sweep.SweptRun` | src/main/jni/optimize.c:1186-1275 | numbering, then emptying or peephole rewriting and dead stores of every block against any live-out sets, preserves the verdict of every run whose tests of all bits find a bit, if no block gives up an atom that is live after it in the numbered graph |
| `Sweep.NoNewReadsSpares` | src/main/jni/optimize.c:1712-1719 | no block does if numbering makes none read an atom it did not read before |
| `LostAtoms.EmptiedExact` | src/main/jni/optimize.c:1264-1271 | states that agree on a set of atoms leave an emptied block the same way exactly when the set has all its branch reads, unless the targets are equal or the test is constant |
| `LostAtoms.LostTestGoesAstray` | src/main/jni/optimize.c:1264-1275 | behind a block that no longer sets X, an emptied test of A against X goes either way depending on X at entry, exactly when the A it sees can be compared both ways |
| `SharedLoad.TwiceSpared` | src/main/jni/optimize.c:1712-1719 | two tests of one field, as in ip or arp, meet the condition of SweptRun, for every numbering and all live-out sets |
| `SharedLoad.SweepIsRight` | src/main/jni/optimize.c:1712-1719 | the sweep deletes the second test's load and keeps the verdict, although by its live-out sets the first load is dead |
| `Sweep.FinishAll` | src/main/jni/optimize.c:1264-1275 | every live block is emptied, or peepholed and cleaned, exactly as opt_blk does; no statement and no edge is added, no other block touched |
| `Exactness.IdleEmptied` | src/main/jni/optimize.c:1264-1275 | a rewriting sweep empties every returning block, and every block from which nothing is used and which leaves A and X with the known numbers it found there, and no other |
| `Sweep.UnalteredReads` | src/main/jni/optimize.c:1605-1627 | without rewriting no block reads a new atom |
| `Sweep.NeverFails` | src/main/jni/optimize.c:1605-1619 | without rewriting numbering cannot fail |
| `SweptClosed.FinishedClosed` | src/main/jni/optimize.c:1272-1275 | peephole rewriting and dead stores leave a self-contained block self-contained |
| `SweptClosed.FinishedReadsLess` | src/main/jni/optimize.c:1272-1275 | nor does any atom become live behind an indexed load or at the start of a block |
| `PlainBlocks.FinishedPlain` | src/main/jni/optimize.c:1272-1275 | a sweep leaves blocks plain: X dead after every indexed load, no mask or test of all bits |
| `PlainBlocks.FinishedRuns` | src/main/jni/optimize.c:1272-1275 | and never makes a plain block abort where it did not |
| `PlainFilters.PlainLoop` | src/main/jni/optimize.c:1700-1727 | any number of turns of the first loop from a graph of plain blocks do right by every run on a packet on which no block aborts |
| `PlainFilters.RelTestPlain` | src/main/jni/gencode.c:5808-5852 | the block of every comparison of arithmetic expressions is plain |
| `StaleLiveness.SweepIsWrong` | src/main/jni/optimize.c:1712-1719 | the sweep over the code of ether[k] = j or ether[k] > k, in the form it has at the start of the second loop, makes it compare the byte with the X it is entered with; the condition of SweptRun fails there |
| `BranchTests.TestsExplained` | src/main/jni/optimize.c:1276-1285 | in a graph of self-contained blocks a test that completes compares what its numbers stand for, whatever run led to it |
| `BranchMoves.UseConflict` | src/main/jni/optimize.c:1287-1307 | whether some atom live out of the second block has different numbers in the two |
| `BranchMoves.FoldEdgeRight` | src/main/jni/optimize.c:1309-1361 | if the dominating edge was taken the child's test goes where fold_edge says |
| `BranchMoves.FoldEdgeExact` | src/main/jni/optimize.c:1309-1361 | between two tests of one number for constants nothing is offered exactly when the edge can be taken with values of A that go either way at the child, and what is offered is where all of them go |
| `BranchMoves.DominatorTaken` | src/main/jni/optimize.c:1364-1417 | an edge in edom was taken, its test so decided, on every run that gets to the edge |
| `EdgeMoves.RedirectWalk` | src/main/jni/optimize.c:1364-1417 | redirecting an edge whose next block is forced keeps the verdict, if the graph above is as analysed |
| `BranchMoves.MoveKeepsVerdict` | src/main/jni/optimize.c:1364-1417 | every redirect opt_j justifies keeps the verdict |
| `BranchMoves.FindFold` | src/main/jni/optimize.c:1391-1415 | the scan of edge dominators finds a justified target, or none decides the next test without conflict |
| `BranchMoves.BranchMover.OptJ` | src/main/jni/optimize.c:1364-1417 | one edge moved as far as it goes, each time to a lower level, past a block with one target at least once unless that conflicts: verdict kept, and no further move possible |
| `BranchMoves.BranchMover.MoveBranches` | src/main/jni/optimize.c:1628-1633 | the whole bottom-up sweep keeps the verdict; where it ends, no test behind an edge repeats the test of an edge on every path to it, and none asks for another constant than one found equal on the way, unless the target conflicts; nothing has moved if done |
| `TestChains.ChainDecides` | src/main/jni/optimize.c:1447-1482 | a chain of tests with a common target, entered on a run that does not abort, computes their disjunction (conjunction) |
| `TestChains.ReorderedDecide` | src/main/jni/optimize.c:1489-1508 | reordering the tests of a chain entered only at its head keeps the verdict whenever neither run aborts |
| `Pullup.OnePredecessor` | src/main/jni/optimize.c:1494-1498 | a block dominated by the head of its chain has exactly one predecessor, the one before it |
| `Pullup.FollowChain` | src/main/jni/optimize.c:1447-1482 | the walk finds the first block with, or without, the value, or fails where the chain ends |
| `Exactness.WantedExactly` | src/main/jni/optimize.c:1420-1482 | a pull is wanted exactly if the predecessors agree on A and there are a chain from the block to one without that value and one from behind it to a block with it |
| `Pullup.RetargetPreds` | src/main/jni/optimize.c:1499-1506 | every edge of the listed predecessors to the block now leads to the pulled one |
| `Pullup.PullReorders` | src/main/jni/optimize.c:1489-1508 | one pull only permutes the tests of the chain |
| `Pullup.PullCorrect` | src/main/jni/optimize.c:1420-1603 | it leaves the graph acyclic, and the verdict is the same unless some block aborts on the packet and one of the two runs does |
| `Pullup.Puller.Pull` | src/main/jni/optimize.c:1420-1603 | or_pullup and and_pullup act exactly when the predecessors agree and both walks succeed; then one block moves and the verdict is kept in that sense |
| `PullPass.PullOne` | src/main/jni/optimize.c:1420-1603 | with fresh analyses, or_pullup or and_pullup of a block is made exactly when its predecessors agree and both walks succeed, and is then the pull they ask for |
| `PullPass.PullAll` | src/main/jni/optimize.c:1635-1641 | or_pullup and and_pullup on every block, lowest level first, each such a step from the graph the one before left: the tests are the same, and so is the verdict on every packet on which no block aborts |
| `InternBlocks.EqSlist` | src/main/jni/optimize.c:1789-1807 | equal statement lists, deleted statements aside |
| `InternBlocks.EqBlk` | src/main/jni/optimize.c:1809-1819 | equal statements, branch and targets |
| `InternBlocks.MakeMarks` | src/main/jni/optimize.c:1760-1784 | marks are closed under successors and lie below the start |
| `InternBlocks.LinkBlocks` | src/main/jni/optimize.c:1829-1847 | link is set exactly for marked blocks with a later marked equal, to one that is itself not linked |
| `InternBlocks.RedirectAll` | src/main/jni/optimize.c:1848-1862 | every branch is turned to the linked block |
| `InternBlocks.RedirectedRun` | src/main/jni/optimize.c:1848-1862 | that preserves the verdict, aborts included |
| `InternBlocks.SlackFalls` | src/main/jni/optimize.c:1848-1862 | every redirect raises its target's index, so the loop ends |
| `InternBlocks.InternBlocks` | src/main/jni/optimize.c:1821-1863 | the verdict is preserved and no two distinct reachable blocks are equal at the end |
| `Layout.ArrayRunsLikeGraph` | src/main/jni/optimize.c:2062-2214 | an array in which every block is placed with short branches or long jumps runs like the graph |
| `Convert.Slength` | src/main/jni/optimize.c:1879-1889 | the number of statements not deleted |
| `Convert.Converter.CountStmts` | src/main/jni/optimize.c:1945-1956 | the size of everything not yet marked, long jumps included |
| `Convert.Converter.ConvertCodeR` | src/main/jni/optimize.c:2062-2214 | a completed pass places each block once, extents adjacent and ending at the tail; a failed one sets one new long-jump flag |
| `Convert.TrueFollows` | src/main/jni/optimize.c:2062-2110 | blocks are emitted false branch first: the true target stands right behind its test unless it has been emitted already |
| `Convert.Converter.IcodeToFcode` | src/main/jni/optimize.c:2235-2265 | extents tile the array exactly in the order of convert_code_r, the root is at 0, a branch has a long jump exactly if it goes 256 instructions or more, and for every state and packet the array gives the graph's outcome; the retries end |
| `Pipeline.CompileFilter` | src/main/jni/gencode.c:451-553 | from expression to array without the optimizer: accept, reject and abort exactly as the expression says |
| `Optimizer.FinishedGenerated` | src/main/jni/gencode.c:488-523 | backpatched filters meet what the optimizer's passes require |
| `Optimizer.MovePass` | src/main/jni/optimize.c:1700-1726 | levels, edge dominators, liveness and numbers of the graph, then all branch moves they justify: no test is left that an edge on every path to it tells, verdict kept, blocks still self-contained |
| `Optimizer.NumberPass` | src/main/jni/optimize.c:1700-1726 | levels, then numbering with rewriting, of any graph: every reachable block is numbered from its predecessors' exits; verdict kept if no statement reads an unknown atom, always so on generated graphs; fails on those only at a block that aborts on every packet |
| `Optimizer.PeepPass` | src/main/jni/optimize.c:1700-1726 | numbering with rewriting, liveness of the result and the peephole rewrites by both: verdict kept but for tests of all bits, numbers within the cost of the graph |
| `Optimizer.SweepPass` | src/main/jni/optimize.c:1712-1719 | one turn of the loop over the statements, rewriting or not: every live block numbered, then finished by the liveness taken before; verdict kept under the condition of SweptRun; without rewriting numbering changes nothing, a generated graph meets the condition and stays generated, and the turn cannot fail |
| `Optimizer.DeadStorePass` | src/main/jni/optimize.c:1700-1726 | levels and liveness, then exactly the dead stores of every block deleted: verdict kept |
| `Optimizer.Optimize` | src/main/jni/optimize.c:1732-1758 | branch moves, numbering, dead stores and interning in a row: verdict kept, reachable blocks distinct, both numberings below the allocation for the first graph; fails only at a block that aborts on every packet |
| `Optimizer.CompileOptimized` | src/main/jni/optimize.c:1732-1758 | from expression to array through these passes: snaplen or 0 as the expression is true or false, for every packet on which it does not abort; fails only on an expression with a test that aborts on every packet |
| `FirstLoop.OneTurn` | src/main/jni/optimize.c:1605-1641 | one turn of the first loop: a sweep of the given graph, the branch moves of what that leaves, and the pull-ups of what they leave; blocks stay self-contained, and the verdict is kept on every run that does not abort, finds a bit in its tests of all bits, and meets no aborting block in the pull-ups |
| `FirstLoop.Loop` | src/main/jni/optimize.c:1700-1727 | any number of turns, each such a turn from the graph the one before left and within the numbers allocated for the first graph: the verdict is kept on every run that all of them do right by |
| `BpfOptimize.SecondLoop` | src/main/jni/optimize.c:1700-1727 | any number of rewriting turns, each from the graph the one before left, keep the verdict of every run whose tests of all bits find a bit, if each meets the condition of SweptRun, within the numbers allocated for the first graph; one fails only where numbering of its graph does, and the first, on a generated graph, only at a block that aborts on every packet |
| `BpfOptimize.BpfOptimize` | src/main/jni/optimize.c:1732-1746 | both loops and interning in a row: interning keeps the verdict of the last graph and leaves no two reachable blocks equal, and the verdict is kept on every run that all turns do right by |
| `BpfOptimize.Compile` | src/main/jni/optimize.c:1732-1746 | from expression to array through both loops: the array runs like the last graph of turns that start at the code of the expression, and returns snaplen or 0 as the expression is true or false on every packet on which it does not abort and that every turn does right by; with plain tests the turns of the first loop do, and a second loop that fails at once has found a test that aborts on every packet |
| `BpfOptimize.CompilePlain` | src/main/jni/optimize.c:1700-1746 | for every expression with plain tests, any number of turns of the first loop and interning: snaplen or 0 as the expression is true or false, on every packet on which no test aborts |
| `FieldFilters.FieldTurnSafe` | src/main/jni/optimize.c:1712-1719 | a rewriting turn over field tests meets the condition of SweptRun and spares every run: where a test comes to rely on the field its predecessors leave in A, none of them gives A up |
| `FieldFilters.FieldTurnLeaves` | src/main/jni/optimize.c:1712-1719 | and leaves field tests, each of which reads A only if all predecessors leave the same field or constant there |
| `FieldFilters.FieldsNeverFail` | src/main/jni/optimize.c:645-649 | numbering cannot fail on field tests |
| `FieldFilters.CompileFields` | src/main/jni/optimize.c:1732-1746 | for every combination of field tests and any number of turns of both loops: snaplen or 0 as the expression is true or false, on every packet on which no test aborts |
| `KernelFilter.FixOffset` | src/main/jni/pcap-linux.c:2073-2103 | payload offsets lose the header, 14 becomes the protocol's magic offset, others punt |
| `KernelFilter.CookedLoad` | src/main/jni/pcap-linux.c:2073-2103 | a load at k, 16 <= k < 2^31, is made at k - 16, one at 14 at 0xfffff000, and any other is refused |
| `KernelFilter.OtherInsn` | src/main/jni/pcap-linux.c:2004-2071 | every other instruction stays, but a constant return other than 0 becomes 65535 |
| `KernelFilter.FixProgram` | src/main/jni/pcap-linux.c:1981-2071 | a fixed copy, the original untouched; in cooked mode it succeeds exactly when every load is at 14 or from 16 on, below 2^31, and otherwise always |
| `KernelFilter.FixedRun` | src/main/jni/pcap-linux.c:1981-2103 | on the kernel's view the fixed filter accepts, rejects and aborts as the original does on the cooked packet, constant accepts becoming 65535, for runs whose indexed loads stay in the payload |
| `KernelFilter.UncookedRun` | src/main/jni/pcap-linux.c:2011-2036 | outside cooked mode only constant returns change |
| `KernelFilter.IndexedExact` | src/main/jni/pcap-linux.c:2073-2103 | an indexed load survives for every packet exactly when its address is in the payload |
| `KernelFilter.WrappedProgram` | src/main/jni/pcap-linux.c:2073-2103 | a filter that is fixed without complaint and decides differently |
| `InterfaceOrder.GetInstance` | src/main/jni/inet.c:103-127 | the number of the first run of digits, 0 without one, the greatest for "any" |
| `InterfaceOrder.InstanceOf` | src/main/jni/inet.c:103-127 | a name with the digits of n, none before them and none next, has instance n |
| `InterfaceOrder.NoInstance` | src/main/jni/inet.c:103-127 | a name without digits has instance 0, "any" the greatest int |
| `InterfaceOrder.InsertOrdered` | src/main/jni/inet.c:255-333 | the place found keeps loopbacks last and instances in order |
| `InterfaceOrder.InsertStable` | src/main/jni/inet.c:255-333 | a new entry comes after every entry with its key |
| `InterfaceOrder.ListInvariant` | src/main/jni/inet.c:129-357 | after any sequence of calls: unique names, non-loopbacks first, instances not falling in either group, ties in order of arrival, and exactly the openable interfaces asked for |
| `InterfaceOrder.LookupFinds` | src/main/jni/inet.c:562-568 | lookup finds nothing exactly when there is no non-loopback entry, else one with the lowest instance |
| `InterfaceList.List.Find` | src/main/jni/inet.c:137-143 | the entry with the name, if listed |
| `InterfaceList.List.FindPlace` | src/main/jni/inet.c:261-333 | the two neighbours of the first place the entry can go |
| `InterfaceList.List.AddOrFindIf` | src/main/jni/inet.c:129-357 | the linked list holds what the requests so far amount to; the node returned has the name; null exactly for an unlisted interface that cannot be opened |

## Left out

- PeepholePass.PeepedRun: excludes runs on which a test of all bits finds none, for which the property is false (`Peephole.FullMaskIsWrong`); `Peephole.OptPeep` says exactly what happens to such a block. The same for Sweep.SweptRun.
- Sweep.SweptRun: asks that no block give up an atom that is live after it in the numbered graph, without which the property can fail (`StaleLiveness.SweepIsWrong`); the converse is stated for emptied blocks and their branches only, because an atom lost may make no difference to any verdict.
- StaleLiveness.SweepIsWrong: starts from the code as the first loop leaves it, which is written down, not derived from the compiled expression.
- KernelFilter.FixedRun: holds for runs whose indexed loads stay in the payload, because otherwise the property is false (`KernelFilter.WrappedProgram`).
- Pullup.Puller.Pull: one step; a second step would use dominators the first has changed, so `PullPass.PullAll` computes them again. Reordering may reach a load the original order avoided, so runs that abort are excepted.
- FrameTests.GenBcmp: the compared bytes lie below offset 2^32, since u_int arithmetic would wrap round; the same for Mpls.CompileMplsIp.
- Mpls.CompileMplsIp: states which frames are accepted, not which of the others abort rather than reject.
- Optimizer.Optimize: one round, without the peephole and pull-up passes; its theorem needs no hypothesis on runs. `BpfOptimize.BpfOptimize` has them all, under theirs.
- BpfOptimize.BpfOptimize: the number of turns is given, since the source's loops are not guaranteed to end by their code; without `opt_root`.
- BpfOptimize.Compile: that the turns of the second loop meet the condition of SweptRun is derived from the expression for field tests only (`FieldFilters.CompileFields`); for comparisons of arithmetic expressions they need not (`StaleLiveness.SweepIsWrong`).
- BpfOptimize.CompilePlain: excepts packets on which some test aborts even if the expression does not reach it, since the pull-ups may reach it first; the same for FieldFilters.CompileFields.
- Staleness other than of liveness: numbers kept after a peephole rewrite of the same turn, dominators reused between moves and pull-ups.
- Peephole rewriting of returning blocks, which in generated code have no statements.
- The `done` flag of statement rewrites; only the branch moves and pull-ups keep it.
- Leftover `k` fields of statements that do not use them, which `eq_slist` compares.
- Protocol-check conjuncts of `gen_load` and `gen_relation` (`gen_proto_abbrev`, `gen_ipfrag`).
- Link types other than Ethernet, variable-length link headers, VLAN, PPPoE, ATM, MTP and host primitives.
- `gen_protochain` and block-local jumps, `gen_byteop`, the Bison tables; expressions are taken as trees.
- `atoi` beyond the range of an int, which C leaves undefined: instances are unbounded naturals.
- Register state across compilations, malloc failure, error strings, printing, capture back ends.
- SKF_AD_OFF and SKF_AD_PROTOCOL come from the Linux kernel's own headers, which are not part of this model.
