# Model of the rtcl bytecode pipeline and values

rtcl compiles Tcl to bytecode, optimises the bytecode in place, and runs it on
tagged, reference-counted values. This project models four parts of it and
proves what they are for.

* **The optimiser.** `Opcodes`, `Machine` and `Discipline` give the instruction
  set and a small-step machine: operand stack, variables behind an arbitrary
  deterministic host, loop stack, region stack, current site. `Simulation`,
  `Rewriting`, `Stripping`, `Trampolines` and `Windows` hold the single steps,
  `Laws` what they ask of the host, `Passes` the passes as functions,
  `Outlines` what their windows look like, `PassSoundness` the theorem about
  whole pipelines, `Convergence`, `Settled`
  and `Ranges` their termination, what they leave and their targets, `ByteCodes`
  the in-place loops. `Negations`, `Fates` and `Doubled` are about removed
  negations. `Unfusing` and `UnfusedSoundness` expand the superinstructions
  again, `Levels`, `Taming`, `Apart` and `UnfusedRuns` compare the runs.
* **The compiler.** `Sources` is parsed source with the spans its parser
  promises, `Resolution` what the compiler makes of it, `Compilers` the one-pass
  compiler itself: a class that appends, records sites, fills in targets
  afterwards, and takes back an expression it cannot finish. `Meaning` evaluates
  the source itself, and `Resolved` shows that what the compiler makes of it
  means the same. `Lexing` and `LexingFacts` are the tokenizer of expressions,
  `Lexemes` and `BasedNumbers` which texts are tokens, `Exprs` the recursive
  descent, `Grammar` the grammar it follows, `Reading` the two together.
  `Syntax`, `Codegen` and `Evaluate` are scripts, their code and their meaning;
  `Compiled`, `Programs` and `Units` prove code and meaning equal, in both
  directions, also for scripts that run forever. `Layouts`, `Accounts`,
  `Accounting` and `Stacks` say what the stacks are at each place of the code,
  `Places` where the parts of a form's code stand. `Placement`, `Typing` and
  `Tidiness` are about sites, shapes and targets; `Negating`, `Misaimed`,
  `Nested`, `Rerouting` and `Expansions` are concrete units that show where
  promises end; `Idle` says what the optimiser leaves alone in them,
  `Walks` follows their runs.
* **Values.** `ListText`, `ListRoundTrip`, `ListSafety` and `ListCodec` are the
  list printer and parser byte by byte, `Quoting`, `Escapes` and `ListForms`
  what is printed and what a text stands for, `Numerals` the digits of both;
  `Values`, `Heaps` and `ValueFacts` the heap of counted boxes with a capped
  free list, copy on write and cached strings, holding lists and the ordered
  dictionaries of `Dicts`.
* **Completeness.** The scanner behind `info complete`, and in `Pieces` what a
  complete script is.

Loops and updates in place are methods proved against functions; what the
functions promise is proved as lemmas. The executor is taken from
`crates/rtcl-vm/src/interp/vm_exec.rs`, whose regions and sites are kept because
they decide where a signal goes. The evaluators of sources and
of scripts are direct and know neither stacks nor jumps.

Five promises do not hold as they are made. Each has its exact condition, a
concrete unit on which it fails, or both.

* Removing `Not; Not` is right exactly on 0 and 1 where the value is kept
  (`Windows.DoubleNot`; `Negating.NegationsLost` at the unit of `expr {!!n}`), exactly
  on readable operands in front of a branch (`Windows.DoubleNotBranch`), always
  in front of a third. On text that is neither a number nor a boolean the two
  instructions object in different words, so `if {!!$x} {}` still fails there,
  with the other message (`Negating.DoubtsLost`). A value nobody wants forgives it
  (`Negating.FittingIsNotNeeded`).
* A literal `continue` is compiled by one flag. It goes to the right loop
  exactly when the flag fits the loops around it (`Compiled.ContinueLands`): not
  in a `for` next script inside another next script, in a foreach inside a next
  script, or in a start script inside a next script. `Misaimed.AimIsNeeded` is a
  script with a value whose unit never ends.
* The expansion of the loop-closing superinstructions leaves a region behind.
  Outcomes are equal without trails, for every host, as long as no `for` or
  `foreach` runs in a next script (`Units.UnfusedUnitMeaning`);
  `Rerouting.Rerouted` is a unit with one where they are not.
* A site directly in a bracket does not count the lines before the bracket. Its
  line is right exactly when there are none (`Placement.UnitLines`,
  `Placement.BracketLineOff`); the source says so on purpose.
* One register holds the argument base of `{*}` calls, so a nested one takes it
  from the outer (`Expansions.MarkDecides`, `Expansions.OuterMarkLost`).

Two premises are about the host: `Lawful`, that comparing texts is symmetric
under swapping the operands, and `NotsAgree`, that `!`, where it accepts a text,
gives 0 or 1 and agrees with the truth test of branches
(`crates/rtcl-vm/src/types/expr_funcs.rs:51-83`). That one compilation frames all
its loops alike is `crates/rtcl-parser/src/compiler.rs:843`.

Where the code and its comments differ the model follows the code: the first
pass does not report slot fusion as a change, a condition that raises `break`
or `continue` is caught by its own compiled loop, and the shapes of an abandoned
expression stay in the table.

## Model

| member | source | states |
|---|---|---|
| Arith.FoldExact | crates/rtcl-ir/src/bytecode.rs:1197-1257 | Every constant fold that fires yields the exact unbounded-integer result (floor division, bits in two's complement) of the operator on 64-bit operands, and that result is a 64-bit word again |
| Arith.ShlFitsExactly | crates/rtcl-ir/src/bytecode.rs:1229-1236 | The left-shift test accepts exactly when a*2^b fits in 64 bits, for 0 <= b < 64 and either sign |
| Arith.SarIsFloor | crates/rtcl-ir/src/bytecode.rs:1238-1241 | The arithmetic right shift is floor(a / 2^b), for every b >= 0, past the word size too |
| Arith.BitsOfIsBits | crates/rtcl-ir/src/bytecode.rs:1221-1223 | The bitwise folds agree with the bit-by-bit operation on two's complement of unbounded width |
| Arith.BitsAt | crates/rtcl-ir/src/bytecode.rs:1221-1223 | Each bit of that result is the operator on the operands' bits at the place |
| Arith.FloorLaws | crates/rtcl-ir/src/bytecode.rs:1207-1209 | Division rounds down: the remainder has the divisor's sign and is smaller than it |
| Arith.FoldFires | crates/rtcl-ir/src/bytecode.rs:1197-1257 | A fold fires exactly when its operator's guard holds and the exact result is a 64-bit word |
| Opcodes.CmpCcOf | crates/rtcl-ir/src/bytecode.rs:162-172 | The comparison encoding is a bijection with its decoder, and nothing else encodes |
| Windows.Mirrored | crates/rtcl-ir/src/bytecode.rs:190-197 | Mirroring the encoding is swapping the operands; for operands that are not integers this is what the host is asked to satisfy |
| Windows.OperandSound | crates/rtcl-ir/src/bytecode.rs:1145-1177 | Each operand-read window, executed one by one from any state with room, equals its superinstruction: values, world, faults |
| Windows.FoldSound | crates/rtcl-ir/src/bytecode.rs:1197-1257 | A folded window pushes what the three instructions push |
| Windows.PairSound | crates/rtcl-ir/src/bytecode.rs:1260-1296 | Each two-instruction peephole equals its window; `Not; Not` under the premise that the operand is 0 or 1; the exact conditions are the next rows |
| Windows.DoubleNot | crates/rtcl-ir/src/bytecode.rs:1285-1291 | Removing `Not; Not` where its value is kept is right exactly when the operand is 0 or 1 (for hosts whose `!` on text, where it answers, agrees with its truth test) |
| Windows.DoubleNotBranch | crates/rtcl-ir/src/bytecode.rs:1285-1291 | Removing it in front of a branch is right exactly when the operand is a number or a text `!` accepts, or both instructions object alike |
| Windows.TripleNot | crates/rtcl-ir/src/bytecode.rs:1285-1291 | Removing it in front of a third `Not` is always right |
| Windows.LiteralSound | crates/rtcl-ir/src/bytecode.rs:1273-1284 | The boolean literal before a branch is the integer literal it replaces |
| Windows.FusePairSound | crates/rtcl-ir/src/bytecode.rs:452-676 | Every two-instruction fusion equals its window, faults and regions included |
| Windows.FuseTripleSound | crates/rtcl-ir/src/bytecode.rs:452-676 | Every three-instruction fusion equals its window, the `for` tail included |
| Windows.FuseQuadSound | crates/rtcl-ir/src/bytecode.rs:452-676 | The four-instruction `set x [expr {$a + $b}]` fusion equals its window |
| Rewriting.RewriteKeepsMeaning | crates/rtcl-ir/src/bytecode.rs:678-688 | Replacing a window nobody jumps into by an instruction of equal effect keeps every outcome of every run, endless runs included |
| Rewriting.RewriteKeepsGuard | crates/rtcl-ir/src/bytecode.rs:678-688 | Such a rewrite leaves every target guarded against later rewrites |
| Stripping.StripKeepsMeaning | crates/rtcl-ir/src/bytecode.rs:1302-1393 | Compaction is an exact simulation: old index p runs as forward[p], same outcomes both ways |
| Stripping.StripLeavesNoNop | crates/rtcl-ir/src/bytecode.rs:1382-1392 | No no-op remains, and the size is the number of instructions kept |
| Stripping.StripKeepsBackEdges | crates/rtcl-ir/src/bytecode.rs:1322-1380 | A transfer is to its own index or earlier after compaction exactly when it was before |
| Stripping.StripKeepsGuard | crates/rtcl-ir/src/bytecode.rs:1322-1380 | Compaction keeps every target out of the optimiser's windows |
| Trampolines.FuseKeepsMeaning | crates/rtcl-ir/src/bytecode.rs:436-446 | Fusing a loop's closing jump with the targeted instruction behind it, and retargeting everything to the head, keeps every outcome, because the fused instruction normalises the regions for both entries |
| Trampolines.FuseKeepsOrder | crates/rtcl-ir/src/bytecode.rs:636-656 | The same step keeps every run orderly (operands above the loop's entry, regions at the start of a pass) |
| Trampolines.FuseKeepsGuard | crates/rtcl-ir/src/bytecode.rs:689-751 | After retargeting no target lies inside a window that is rewritten without looking at targets |
| PassSoundness.SolidIsWindow | crates/rtcl-ir/src/bytecode.rs:1124-1131 | In a guarded unit no instruction targets the inside of a window the first pass matches, so it may ignore targets |
| PassSoundness.SlotsKeep | crates/rtcl-ir/src/bytecode.rs:1142-1181 | Slot fusion keeps meaning, order, shape and guard, from any position of its scan |
| PassSoundness.FoldsKeep | crates/rtcl-ir/src/bytecode.rs:1197-1258 | So does constant folding, with its second look at a folded window |
| PassSoundness.PairsKeep | crates/rtcl-ir/src/bytecode.rs:1260-1296 | So do the two-instruction peepholes, where every removed pair of negations sees 0 or 1, decides a branch it can be read for, or stands before a third |
| PassSoundness.PassKeeps | crates/rtcl-ir/src/bytecode.rs:1124-1299 | The whole first pass keeps outcomes, shape, order and guard |
| PassSoundness.FusePairsKeeps | crates/rtcl-ir/src/bytecode.rs:430-753 | The pair fusion keeps outcomes, shape, order and guard for any placement of targets |
| PassSoundness.RoundKeeps | crates/rtcl-ir/src/bytecode.rs:389-399 | A round of the pipeline keeps them |
| PassSoundness.PeepholeKeepsMeaning | crates/rtcl-ir/src/bytecode.rs:389-399 | From every fresh start whose runs are orderly the optimised unit has exactly the outcomes of the original, everything left on the stacks at a normal end included, and is still well formed, orderly and guarded, if the negations of the original unit see 0 or 1 or have a fate that forgives it |
| Doubled.DropKeeps | crates/rtcl-ir/src/bytecode.rs:1285-1291 | Dropping two negations keeps every outcome where the next real instruction is a third one, or a branch that reads the operand, however many no-ops stand between |
| Fates.FateRewritten | crates/rtcl-ir/src/bytecode.rs:678-688 | What becomes of a value is not changed by any rewrite that spares the instructions consuming it |
| Effects.FuseKeepsNots | crates/rtcl-ir/src/bytecode.rs:636-656 | So the premise about negations survives the loop fusions |
| Effects.RewriteKeepsNots | crates/rtcl-ir/src/bytecode.rs:678-688 | And every other rewrite |
| Effects.FuseKeepsRoom | crates/rtcl-ir/src/bytecode.rs:636-656 | Stores that drop their result keep room below their operand under the loop fusions |
| Effects.RewriteKeepsRoom | crates/rtcl-ir/src/bytecode.rs:678-688 | The same under every other rewrite |
| Convergence.RoundShrinks | crates/rtcl-ir/src/bytecode.rs:389-399 | A round that reports a change strictly decreases (instructions, integer pushes), whatever the instructions |
| Convergence.ConvergeIsEnoughRounds | crates/rtcl-ir/src/bytecode.rs:389-399 | So the pipeline without its cap terminates, and equals some number of capped rounds |
| Settled.RoundSettles | crates/rtcl-ir/src/bytecode.rs:389-399 | When a round on a unit without no-ops reports no change, no rule of any pass matches anywhere in its result |
| Settled.ConvergeSettles | crates/rtcl-ir/src/bytecode.rs:389-399 | So the pipeline without its cap leaves no window of the tables |
| Settled.RoundsSettle | crates/rtcl-ir/src/bytecode.rs:389-399 | With its cap it uses all its rounds or leaves none |
| Ranges.RoundInRange | crates/rtcl-ir/src/bytecode.rs:1322-1380 | Every target of a round's result is an index of the result or its end |
| ByteCodes.KeptLineAt | crates/rtcl-ir/src/bytecode.rs:1382-1392 | Every instruction that survives compaction keeps its own line |
| ByteCodes.ByteCode.Emit | crates/rtcl-ir/src/bytecode.rs:256-261 | Appends one instruction and its line, and answers its index |
| ByteCodes.ByteCode.TruncateOps | crates/rtcl-ir/src/bytecode.rs:268-271 | Cuts instructions and lines to the same length, or changes nothing |
| ByteCodes.ByteCode.PatchJump | crates/rtcl-ir/src/bytecode.rs:274-282 | Changes the target of that jump and nothing else |
| ByteCodes.ByteCode.PatchLoop | crates/rtcl-ir/src/bytecode.rs:285-293 | Changes both targets of that loop entry and nothing else |
| ByteCodes.ByteCode.PatchForeachStart | crates/rtcl-ir/src/bytecode.rs:297-305 | Changes both targets of that foreach start and nothing else |
| ByteCodes.ByteCode.CollectJumpTargets | crates/rtcl-ir/src/bytecode.rs:1083-1121 | Marks exactly the indices some instruction targets |
| ByteCodes.ByteCode.ForwardTable | crates/rtcl-ir/src/bytecode.rs:1326-1337 | The backward sweep computes, for every index, the number of instructions kept before it |
| ByteCodes.ByteCode.RemapTargets | crates/rtcl-ir/src/bytecode.rs:1339-1380 | Every target of every instruction goes through the table |
| ByteCodes.ByteCode.Compact | crates/rtcl-ir/src/bytecode.rs:1382-1392 | The read and write cursors leave the kept instructions and their lines, in order |
| ByteCodes.ByteCode.StripNops | crates/rtcl-ir/src/bytecode.rs:1302-1393 | In place, the unit becomes its compaction, lines parallel |
| ByteCodes.ByteCode.FuseSlots | crates/rtcl-ir/src/bytecode.rs:1138-1181 | The in-place scan computes the slot pass |
| ByteCodes.ByteCode.FoldConstants | crates/rtcl-ir/src/bytecode.rs:1197-1258 | The in-place scan computes the folding pass and reports changes |
| ByteCodes.ByteCode.RewritePairs | crates/rtcl-ir/src/bytecode.rs:1260-1298 | The in-place scan computes the pair peepholes |
| ByteCodes.ByteCode.PeepholeOnce | crates/rtcl-ir/src/bytecode.rs:1124-1299 | The method is the specified first pass |
| ByteCodes.ByteCode.ApplyRetargets | crates/rtcl-ir/src/bytecode.rs:689-751 | The recorded retargetings are applied to every target, one after another |
| ByteCodes.ByteCode.FuseScan | crates/rtcl-ir/src/bytecode.rs:449-688 | The scan fuses as specified and records the retargetings |
| ByteCodes.ByteCode.FuseOnce | crates/rtcl-ir/src/bytecode.rs:430-753 | The method is the specified pair fusion |
| ByteCodes.ByteCode.Optimise | crates/rtcl-ir/src/bytecode.rs:389-399 | The loop of at most eight rounds leaves the specified optimised unit, with its lines |
| Unfusing.ExpandsFused | crates/rtcl-ir/src/bytecode.rs:757-804 | The superinstructions in the list are exactly the ones the expansion changes |
| Unfusing.NoFusedRemains | crates/rtcl-ir/src/bytecode.rs:806-818 | No superinstruction is left in an expanded unit |
| Unfusing.UnfusedAt | crates/rtcl-ir/src/bytecode.rs:1036-1079 | Each old index corresponds to the head of its expansion, targets remapped |
| UnfusedSoundness.ExpandExact | crates/rtcl-ir/src/bytecode.rs:817-1030 | Each superinstruction does what its expansion does, step by step, except the three that close a loop |
| UnfusedSoundness.SwapBlind | crates/rtcl-ir/src/bytecode.rs:913-948 | The three that close a loop do the same but for regions and the current site |
| UnfusedRuns.UnfusedKeepsMeaning | crates/rtcl-ir/src/bytecode.rs:814-1079 | For every host, whatever its commands raise: a unit of flat code and its expansion end alike, with the same operands left, and run forever alike, errors compared without their trails |
| UnfusedRuns.SkippedDecides | crates/rtcl-vm/src/interp/vm_exec.rs:227-285 | Of two states that differ in regions and sites alone, a raised `continue` goes on alike exactly when it passes as many loops by |
| Apart.FlagsAgree | crates/rtcl-ir/src/bytecode.rs:913-948 | The regions an expansion leaves behind never change whether a next script is open above the innermost loop's entry, in flat code |
| Taming.FuseKeepsTame | crates/rtcl-ir/src/bytecode.rs:636-656 | Code stays flat under the loop fusions |
| Taming.RewriteKeepsTame | crates/rtcl-ir/src/bytecode.rs:678-688 | And under every other rewrite |
| UnfusedSoundness.UnfusedExactly | crates/rtcl-ir/src/bytecode.rs:814-1079 | Without those three the outcomes are equal, trails included |
| Rerouting.Rerouted | crates/rtcl-ir/src/bytecode.rs:913-948 | For `for {} {c} {foreach v $y {}} {f}`, compiled and optimised, a `continue` raised by the second call of `f` goes on to the next script; expanded again the unit ends with it |
| Rerouting.RegionLeftBehind | crates/rtcl-ir/src/bytecode.rs:913-948 | An error raised there has two more regions in the trail of the expanded unit |
| Units.FlatIsNotNeeded | crates/rtcl-ir/src/bytecode.rs:814-1079 | Behind an `exit` the same script and its expansion end alike for every host: flatness is enough, not needed |
| Nested.OptimisedIs | crates/rtcl-ir/src/bytecode.rs:389-399 | That unit comes out of the optimiser with both loop-closing superinstructions |
| Nested.ExpandedIs | crates/rtcl-ir/src/bytecode.rs:1036-1079 | And out of the expansion without them |
| ByteCodes.NothingToUnfuse | crates/rtcl-ir/src/bytecode.rs:1032-1034 | A unit without superinstructions is its own expansion, so copying it is right |
| ByteCodes.ByteCode.Unfuse | crates/rtcl-ir/src/bytecode.rs:1032-1079 | The copying loop and the remapping loop produce the specified expansion, every instruction with the line of its superinstruction |
| Machine.ExecCore | crates/rtcl-vm/src/interp/vm_exec.rs:2193-2400 | An instruction transfers control only to a target it carries |
| Discipline.ExecFree | crates/rtcl-vm/src/interp/vm_exec.rs:1963-1972 | Control, open loops included, only reaches what the instruction or an open loop names |
| Simulation.ExecMapped | crates/rtcl-ir/src/bytecode.rs:1322-1380 | Instructions commute with renaming every index they mention |
| ListRoundTrip.FindConverted | crates/rtcl-vm/src/value.rs:1579-1690 | Wherever an element printed in its mode stands in a list text, the scanner finds exactly it |
| ListRoundTrip.BraceCloses | crates/rtcl-vm/src/value.rs:1350-1424 | A braced element closes at its own brace and not before, escapes and nesting included |
| ListRoundTrip.RoundTrip | crates/rtcl-vm/src/value.rs:1317-1328 | Parsing a printed list returns exactly its elements, for every list of UTF-8 strings |
| ListRoundTrip.SerializeIsInjective | crates/rtcl-vm/src/value.rs:1317-1328 | Different lists print differently |
| ListRoundTrip.JoinIsValid | crates/rtcl-vm/src/value.rs:1325-1327 | What is printed is UTF-8, as the printer assumes |
| Quoting.ModeIs | crates/rtcl-vm/src/value.rs:1350-1424 | Which mode is chosen, said of the bytes: escaped exactly when braces cannot hold the element, as it is without active bytes, masked when they only close, in braces otherwise |
| Quoting.ElementPrinted | crates/rtcl-vm/src/value.rs:1426-1472 | What an element is printed as, the leading `#` of a list included |
| Quoting.NoComment | crates/rtcl-vm/src/value.rs:1317-1328 | A printed list never starts with a `#` |
| ListSafety.ParseKeepsUtf8 | crates/rtcl-vm/src/value.rs:1692-1827 | Every element parsed out of UTF-8 text is UTF-8: no cut, no escape splits a character |
| ListSafety.Canonical | crates/rtcl-vm/src/value.rs:1532-1548 | Printing what a text parsed to and parsing again changes nothing |
| ListCodec.ScanElement | crates/rtcl-vm/src/value.rs:1350-1424 | The index loop decides the specified quoting mode |
| ListCodec.ConvertElement | crates/rtcl-vm/src/value.rs:1426-1472 | The output loop appends the specified form of the element |
| ListCodec.SerializeList | crates/rtcl-vm/src/value.rs:1317-1328 | The method is the specified printer |
| ListCodec.ScanBackslash | crates/rtcl-vm/src/value.rs:1726-1827 | The decoder's loops consume and yield what one escape means, surrogate pairs included |
| Escapes.PieceRead | crates/rtcl-vm/src/value.rs:1726-1827 | A sequence written for what it stands for is read as that, with its own length: letters for control characters, bytes and code points as numerals in either case with fewer digits where another character ends them, surrogate pairs, line breaks with the blanks behind them |
| Escapes.SubstitutedIs | crates/rtcl-vm/src/value.rs:1692-1709 | So is a whole text of such sequences and plain characters |
| Utf8.EncodeCarries | crates/rtcl-vm/src/value.rs:1711-1724 | The encoding of a code point is well formed and carries it in its payload bits |
| ListForms.ListRead | crates/rtcl-vm/src/value.rs:1532-1690 | A text of elements as they are, in quotes or in braces, with any spaces around them, is parsed into what they stand for; in braces nothing is substituted |
| ListForms.JunkRefused | crates/rtcl-vm/src/value.rs:1579-1690 | A quoted or braced element that runs into another character is refused, at that character, whatever stands before and behind |
| ListForms.OpenQuoteRefused | crates/rtcl-vm/src/value.rs:1640-1670 | Open quotes are refused as such |
| ListForms.OpenBraceRefused | crates/rtcl-vm/src/value.rs:1585-1630 | So are open braces, at any depth |
| ListCodec.CollapseText | crates/rtcl-vm/src/value.rs:1692-1709 | The loop decodes every escape of an element |
| ListCodec.FindBracedElement | crates/rtcl-vm/src/value.rs:1579-1690 | The loop finds the end of a braced element or the specified error |
| ListCodec.FindQuotedElement | crates/rtcl-vm/src/value.rs:1579-1690 | The loop finds the end of a quoted element or the specified error |
| ListCodec.FindBareElement | crates/rtcl-vm/src/value.rs:1579-1690 | The loop finds the end of a bare element |
| ListCodec.ParseElements | crates/rtcl-vm/src/value.rs:1532-1548 | The method is the specified parser, errors included |
| Completeness.CompleteJoin | crates/rtcl-parser/src/completeness.rs:4-141 | If a is complete, a, newline, b is complete exactly when b is, except after an unpaired trailing backslash, where b must also not be blank |
| Pieces.CompleteExactly | crates/rtcl-parser/src/completeness.rs:93-141 | A script is complete exactly when it is put together from bytes, escapes and closed braces, quotes and brackets, each with what may stand in it, perhaps with a backslash at the very end, and does not end in an escaped line break with only blanks behind it |
| Pieces.OpenIsIncomplete | crates/rtcl-parser/src/completeness.rs:93-122 | Behind such text an opener that nothing closes leaves the script incomplete |
| Completeness.BracketsLocal | crates/rtcl-parser/src/completeness.rs:57-91 | A skip depends only on the bytes it consumed |
| Completeness.BracketsShift | crates/rtcl-parser/src/completeness.rs:57-91 | And not on where the text starts |
| Completeness.SkipBracesLoop | crates/rtcl-parser/src/completeness.rs:11-30 | The loop is the specified skip over braces |
| Completeness.SkipQuotesLoop | crates/rtcl-parser/src/completeness.rs:34-54 | The loop, calling its sibling, is the specified skip over quotes |
| Completeness.SkipBracketsLoop | crates/rtcl-parser/src/completeness.rs:57-91 | The mutually recursive loop is the specified skip over brackets |
| Completeness.IsComplete | crates/rtcl-parser/src/completeness.rs:93-141 | The main loop decides completeness |
| Values.TagExact | crates/rtcl-vm/src/value.rs:485-499 | Tagging and untagging give the integer back exactly for the 63-bit ones |
| Heaps.Heap.NewBox | crates/rtcl-vm/src/value.rs:368-379 | A new box comes from the recycled ones if there are any; it was not alive, and nothing else changed meaning |
| Heaps.Heap.Clone | crates/rtcl-vm/src/value.rs:549-563 | The copy means what the original means; immediates and the sentinel are copied, boxes counted |
| Heaps.Heap.Drop | crates/rtcl-vm/src/value.rs:566-589 | Dropping a handle keeps every count exact and every other handle's value |
| Heaps.Heap.DropWord | crates/rtcl-vm/src/value.rs:392-427 | The last owner frees the box, what it holds, and so on; boxes only go away, none twice |
| Heaps.Heap.DropLast | crates/rtcl-vm/src/value.rs:595-626 | A freed box is not alive and is listed for recycling at most once, up to the cap |
| Heaps.Heap.MakeMut | crates/rtcl-vm/src/value.rs:516-531 | Afterwards the handle's box has count one and the same payload, and no handle's value has changed |
| Heaps.Heap.FromStr | crates/rtcl-vm/src/value.rs:678-684 | A fresh handle on the string, other handles as before |
| Heaps.Heap.FromInt | crates/rtcl-vm/src/value.rs:687-700 | A 63-bit integer allocates nothing; the extremes get a box; both mean the integer |
| Heaps.Heap.FromList | crates/rtcl-vm/src/value.rs:725-733 | The list holds what the handles held |
| Heaps.Heap.SetInt | crates/rtcl-vm/src/value.rs:1052-1075 | Sets this handle to the integer and no other |
| Heaps.Heap.Append | crates/rtcl-vm/src/value.rs:1034-1050 | Mutating a list through one handle changes that handle alone; a value that is not a list is left alone |
| Heaps.Heap.SetItem | crates/rtcl-vm/src/value.rs:1034-1050 | So does replacing an item, in range or refused |
| Heaps.Heap.AsStr | crates/rtcl-vm/src/value.rs:774-807 | Answers the rendering, caches it, turns an immediate into a box once, and changes no handle's value |
| Heaps.Heap.ListStr | crates/rtcl-vm/src/value.rs:774-807 | A list renders as its items' renderings printed as a list |
| Heaps.Heap.NewDict | crates/rtcl-vm/src/value.rs:736-743 | A fresh handle on the empty dictionary, other handles as before |
| Heaps.Heap.Insert | crates/rtcl-vm/src/value.rs:1014-1028 | Writing a key through one handle changes that handle alone: a known key keeps its place, a new one goes last; a value that is not a dictionary is left alone |
| Heaps.Heap.Remove | crates/rtcl-vm/src/value.rs:1014-1028 | Removing a key changes that handle alone and keeps the order of the others |
| Heaps.Heap.DictStr | crates/rtcl-vm/src/value.rs:1302-1308 | A dictionary renders as the list of its keys and its items' renderings in turn, and its immediates stay immediates |
| ValueFacts.EntriesKept | crates/rtcl-vm/src/value.rs:195-203 | A written key reads back what was written and a removed one nothing, every other key what it did; removing a key just added undoes adding it |
| ValueFacts.DictTextParses | crates/rtcl-vm/src/value.rs:1302-1308 | The string of a dictionary parses into its keys and items in turn, and reads back as the same dictionary in the same order |
| Dicts.WithTwice | crates/rtcl-vm/src/value.rs:195-198 | Writing keeps every key's place, and a second write at the same key decides |
| Dicts.GatherLast | crates/rtcl-vm/src/value.rs:1083-1120 | A list read as a dictionary has each key once, with the item of its last pair |
| ValueFacts.HeldIsSmaller | crates/rtcl-vm/src/value.rs:516-531 | What a box holds means less than the box |
| ValueFacts.NoCycle | crates/rtcl-vm/src/value.rs:516-531 | So the graph of boxes is acyclic |
| ValueFacts.NoLeak | crates/rtcl-vm/src/value.rs:392-427 | Every live box is reached from some handle |
| ValueFacts.AllReleased | crates/rtcl-vm/src/value.rs:392-427 | Once no handle holds a box, none is alive |
| ValueFacts.MeaningUnique | crates/rtcl-vm/src/value.rs:774-807 | What the boxes mean is determined by the heap alone |
| ValueFacts.ListTextParses | crates/rtcl-vm/src/value.rs:1317-1328 | The string of a list value parses back into its items' strings |
| ValueFacts.IntText | crates/rtcl-vm/src/value.rs:1829-1832 | The string of an integer is its sign and a decimal numeral of its size without leading zeros |
| Lexing.Tokenize | crates/rtcl-parser/src/expr_compile.rs:122-373 | The loop splits a text exactly as specified, or refuses it |
| Lexing.Bracket | crates/rtcl-parser/src/expr_compile.rs:146-171 | The depth-counting loop takes the script up to the bracket that closes it, and its byte offset |
| Lexing.Variable | crates/rtcl-parser/src/expr_compile.rs:174-230 | Names, braced names and names with a balanced subscript are read as specified |
| Lexing.Number | crates/rtcl-parser/src/expr_compile.rs:232-311 | So are decimals, prefixed numbers and fractions |
| LexingFacts.BracketsInText | crates/rtcl-parser/src/expr_compile.rs:124-171 | Every bracket token's offset and script are the bytes between an opening and a closing bracket of the text, whatever multi-byte characters precede |
| LexingFacts.AnySpacing | crates/rtcl-parser/src/expr_compile.rs:137-142 | Texts that are tokens alone are the same tokens next to each other, with any blanks between them |
| LexingFacts.TokensReadBack | crates/rtcl-parser/src/expr_compile.rs:122-373 | A token list written out with any blanks reads back as itself; a negative number needs a place where a sign may stand |
| LexingFacts.DecimalExact | crates/rtcl-parser/src/expr_compile.rs:299-311 | A decimal literal becomes its value exactly when it has no leading zero and fits 64 bits with its sign; otherwise the text is refused |
| Numerals.NumeralSpells | crates/rtcl-parser/src/expr_compile.rs:238-274 | Every number has a numeral in every base, in either case |
| Numerals.LeadingZero | crates/rtcl-parser/src/expr_compile.rs:238-274 | A leading zero does not change what a numeral spells |
| BasedNumbers.DecimalText | crates/rtcl-parser/src/expr_compile.rs:299-311 | A decimal numeral is read as the number it spells, unless it has a leading zero or does not fit 64 bits with its sign |
| BasedNumbers.BasedNumber | crates/rtcl-parser/src/expr_compile.rs:238-274 | A number with a prefix, anywhere in a text and with any leading zeros, is read as what its digits spell in either case, negated after a sign; it is refused exactly when it has no digit, a digit too big for its base, or a value beyond 63 bits |
| BasedNumbers.BasedText | crates/rtcl-parser/src/expr_compile.rs:238-274 | Alone it is one token |
| Lexemes.StepExactly | crates/rtcl-parser/src/expr_compile.rs:137-373 | The token at a place is exactly what the characters there and the one behind them say, whatever its kind; where they say none the text is refused |
| Lexemes.LexExactly | crates/rtcl-parser/src/expr_compile.rs:122-373 | The tokens of a text are exactly those it spells out, with blanks between them |
| Reading.TextReadsBack | crates/rtcl-parser/src/expr_compile.rs:33-69 | However a readable tree is written out, its text is tokenized and read as that tree |
| Reading.BracketSits | crates/rtcl-parser/src/expr_compile.rs:598-612 | A bracket token is where the compiler expects the bracketed script in the expression's bytes |
| Exprs.ParseSound | crates/rtcl-parser/src/expr_compile.rs:411-620 | The tree read follows precedence and associativity and its tokens are exactly the ones consumed |
| Grammar.ReadsDerived | crates/rtcl-parser/src/expr_compile.rs:411-620 | The descent reads a tree from all the tokens exactly when the grammar derives them with it: one nonterminal for each function, from bitwise or down to primaries, each with its own operators |
| Exprs.ParseComplete | crates/rtcl-parser/src/expr_compile.rs:411-620 | Every tree that respects precedence is read from its tokens, whatever loosely binding operator follows |
| Exprs.ReadBack | crates/rtcl-parser/src/expr_compile.rs:33-69 | The tokens of such a tree are all consumed and give the tree |
| Exprs.FormsAreRead | crates/rtcl-parser/src/expr_compile.rs:411-620 | The minimal and the fully parenthesised form of any tree are read as that tree |
| Exprs.AcceptedExactly | crates/rtcl-parser/src/expr_compile.rs:33-69 | What is accepted is exactly the tokens of a readable tree |
| Exprs.TokensDetermine | crates/rtcl-parser/src/expr_compile.rs:411-620 | A readable tree is the only one with its tokens |
| Exprs.NoLogicals | crates/rtcl-parser/src/expr_compile.rs:23-28 | No tree has a short-circuit operator among its tokens, so such expressions are left to the runtime |
| Units.FormsCompileAlike | crates/rtcl-parser/src/expr_compile.rs:411-620 | Both forms compile to the tree's own postorder instructions |
| Compilers.ExprCodegen.ParseLevel | crates/rtcl-parser/src/expr_compile.rs:412-586 | Reads at its level as specified, emitting exactly the postorder code of the tree read |
| Compilers.ExprCodegen.ParseBinary | crates/rtcl-parser/src/expr_compile.rs:412-539 | The loops of the left-associative levels follow the specification, operators after operands |
| Compilers.ExprCodegen.ParsePower | crates/rtcl-parser/src/expr_compile.rs:542-549 | Power associates to the right |
| Compilers.ExprCodegen.ParseUnary | crates/rtcl-parser/src/expr_compile.rs:552-574 | Unary operators nest; a unary plus is refused |
| Compilers.ExprCodegen.ParsePrimary | crates/rtcl-parser/src/expr_compile.rs:577-619 | Literals, reads, parentheses and brackets |
| Compilers.ExprCodegen.ParseBrackets | crates/rtcl-parser/src/expr_compile.rs:599-616 | A bracketed script is compiled in place, or the expression is given up |
| Compilers.Suited | crates/rtcl-parser/src/expr_compile.rs:48-61 | Decides which token lists may be compiled |
| Compilers.Compiler.CompileCommands | crates/rtcl-parser/src/compiler.rs:231-239 | Appends the commands' code with results dropped in between, records their sites, and restores the context |
| Compilers.Compiler.CompileCommand | crates/rtcl-parser/src/compiler.rs:241-334 | Records the site and appends the command's code |
| Compilers.Compiler.CompileIf | crates/rtcl-parser/src/compiler.rs:508-595 | The two back-patching loops leave the nested code of all arms |
| Compilers.Compiler.CompileWhile | crates/rtcl-parser/src/compiler.rs:604-670 | After back-patching the code of the loop, with the `continue` flag restored |
| Compilers.Compiler.CompileFor | crates/rtcl-parser/src/compiler.rs:705-771 | The same for the four parts of a `for`, whose next script is compiled with the flag set |
| Compilers.Compiler.CompileForeach | crates/rtcl-parser/src/compiler.rs:802-881 | The same for foreach and lmap, whose body keeps the flag around it |
| Compilers.Compiler.CompileExprWord | crates/rtcl-parser/src/compiler.rs:1161-1195 | Compiles the expression, or takes back instructions, lines and sites and emits the fallback: afterwards everything before is as it was |
| Compilers.Compiler.TryCompileExpr | crates/rtcl-parser/src/expr_compile.rs:33-69 | Succeeds exactly when the tokens are suited and read to the end; nothing emitted before is touched |
| Compilers.Compiler.EmitSub | crates/rtcl-parser/src/compiler.rs:1218-1236 | A bracketed operand becomes a region in the same unit |
| Compilers.Compiler.CompileBodyInline | crates/rtcl-parser/src/compiler.rs:1101-1134 | A body is compiled with spans and lines rebased, and the base restored |
| Compilers.Compiler.CompileWordSpanned | crates/rtcl-parser/src/compiler.rs:425-432 | A whole-word bracket that stands in the source as its script between brackets is compiled in place, anything else as a plain word |
| Compilers.CountLines | crates/rtcl-parser/src/compiler.rs:1241-1243 | Counts the line ends before a byte |
| Typing.CommandsShaped | crates/rtcl-parser/src/compiler.rs:843-846 | Every compiled foreach finds its own shape in the table, whatever abandoned expressions have left in it |
| Placement.UnitSites | crates/rtcl-parser/src/compiler.rs:425-471 | At any depth of bodies and brackets every site's spans lie in the source and its text is its command's own: the comparison with the source that guards inlining is enough |
| Placement.CommandsPlaced | crates/rtcl-parser/src/compiler.rs:1115-1154 | Rebasing keeps that for a script standing anywhere in the source |
| Placement.UnitLines | crates/rtcl-parser/src/compiler.rs:455-461 | The line of every site outside brackets is one more than the line ends before it; in a bracket it is so exactly when no line end stands between the counted start and the bracket's script |
| Placement.BracketLineOff | crates/rtcl-parser/src/compiler.rs:455-461 | A bracket behind a line end, in two lines of source, has its line one too low |
| Compiled.FormRuns | crates/rtcl-parser/src/compiler.rs:272-334 | Every form's code, wherever it stands, runs as the form evaluates: value, break, continue, halt, or on and on |
| Compiled.WhileRuns | crates/rtcl-parser/src/compiler.rs:604-670 | So the loop of a while, by induction on its passes |
| Compiled.ForRuns | crates/rtcl-parser/src/compiler.rs:705-771 | So a `for`: a `break` in its next script ends it, a `continue` there escapes it |
| Compiled.EachRuns | crates/rtcl-parser/src/compiler.rs:802-881 | So foreach and lmap, results gathered pass by pass |
| Compiled.ArmsRun | crates/rtcl-parser/src/compiler.rs:563-595 | So the arms of an `if` |
| Compiled.ExprRuns | crates/rtcl-parser/src/expr_compile.rs:411-620 | So an expression, which leaves one value |
| Compiled.ContinueLands | crates/rtcl-parser/src/compiler.rs:309-320 | A literal `continue` lands at the loop it belongs to exactly when its flag fits the loops around it |
| Misaimed.AimIsNeeded | crates/rtcl-parser/src/compiler.rs:754-760 | `for {} {1==1} {foreach v l {continue}; break} {}` has a value, and its compiled unit never ends, for every host that answers |
| Fitting.FlatIsAimed | crates/rtcl-parser/src/compiler.rs:754-760 | Where no loop runs in a next script, every `continue` is aimed |
| Programs.CompiledMeaning | crates/rtcl-parser/src/compiler.rs:116-159 | A compiled unit ends with an outcome exactly when the script evaluates to the result it shows, so it runs forever exactly when the script does |
| Programs.OneValueLeft | crates/rtcl-parser/src/compiler.rs:231-239 | A unit that runs to its end leaves exactly one value, the region stack as it was, and no loop open |
| Stacks.CompiledIsOrderly | crates/rtcl-parser/src/compiler.rs:604-670 | In every state of every run operands are above the innermost loop's entry, and a pass starts with the regions and site of the entry |
| Accounting.FormGood | crates/rtcl-parser/src/compiler.rs:272-334 | Each form's code, wherever it stands, steps only between places whose layouts agree: depth, regions, site, loops and frames, `break` and `continue` included |
| Stacks.PlaceDecides | crates/rtcl-parser/src/compiler.rs:231-239 | In every state any run of a compiled unit reaches, operand depth, open regions, site and loops are those of its place in the code, and no instruction takes an operand from below the unit or the innermost loop |
| Stacks.PlaceDecidesAnyway | crates/rtcl-parser/src/compiler.rs:231-239 | Scripts with a misaimed `continue` keep the depths, the number of regions, sites and loops; the kinds of the regions are theirs alone |
| Stacks.PlacesAgree | crates/rtcl-parser/src/compiler.rs:231-239 | Whatever two hosts answer, at the same place the stacks are as deep, and regions, site and loops the same |
| Stacks.EndsBalanced | crates/rtcl-parser/src/compiler.rs:562-595 | At its end a unit has one operand more than at its start, and regions, loops and frames as at the start |
| Stacks.ShapedIsOrderly | crates/rtcl-parser/src/compiler.rs:853-880 | Runs are orderly wherever the `continue`s are aimed, if all loops of a unit are framed alike, as one compilation frames them |
| Stacks.NegatedFits | crates/rtcl-parser/src/compiler.rs:1161-1195 | If every doubled `!` stands over a comparison or a negation, or is a condition, the negations of the unit fit exactly when the branches on them can be read |
| Stacks.BitsFit | crates/rtcl-parser/src/compiler.rs:1161-1195 | If they all stand over comparisons or negations, in conditions too, the negations fit in every run, whatever the branches read |
| Stacks.FlatIsTame | crates/rtcl-parser/src/compiler.rs:705-771 | Where no loop runs in a next script, the compiled code is flat |
| Tidiness.CompiledIsGuarded | crates/rtcl-parser/src/compiler.rs:604-670 | Every target the compiler emits is in the unit and kept out of the optimiser's windows |
| Tidiness.CompiledIsPlain | crates/rtcl-parser/src/compiler.rs:116-159 | The compiler emits no superinstruction |
| Units.OptimisedMeaning | crates/rtcl-parser/src/compiler.rs:154-159 | Compiled and optimised, a script still means what it means |
| Units.CompileUnit | crates/rtcl-parser/src/compiler.rs:116-212 | Compiling and optimising in place leaves the optimised unit of the resolved script, its sites and its shapes |
| Units.DraftIsTidy | crates/rtcl-parser/src/compiler.rs:116-159 | Every unit drafted from parsed source has the shape the optimiser relies on, wherever its `continue`s are aimed |
| Resolved.ScriptSame | crates/rtcl-parser/src/compiler.rs:231-334 | The script the compiler makes of a source evaluates, within any fuel, as the source itself does, commands numbered as in the code |
| Resolved.ShapeSame | crates/rtcl-parser/src/compiler.rs:241-334 | Every command evaluates as what it is recognised as; one whose bodies do not stand in the source invokes its words |
| Resolved.IfSame | crates/rtcl-parser/src/compiler.rs:508-595 | An `if` evaluates its branches in turn, then its else body |
| Resolved.WhileSame | crates/rtcl-parser/src/compiler.rs:604-670 | A `while` its condition and its body |
| Resolved.ForSame | crates/rtcl-parser/src/compiler.rs:705-771 | A `for` its condition, its body and its next script |
| Resolved.EachSame | crates/rtcl-parser/src/compiler.rs:802-881 | A foreach or lmap its body for every binding |
| Resolved.CondSame | crates/rtcl-parser/src/compiler.rs:1161-1195 | A condition the tree of its text, or the text as a whole at run time |
| Resolved.ScriptCounts | crates/rtcl-parser/src/compiler.rs:231-334 | Sites and foreach shapes are numbered in the order of the code |
| Units.WholeMeans | crates/rtcl-parser/src/compiler.rs:116-159 | So a source and its resolved script have the same outcomes |
| Units.UnitMeaning | crates/rtcl-parser/src/compiler.rs:116-212 | From parsed source to optimised unit, outcomes are those of evaluating the source itself, command by command, as far as the negations fit |
| Units.NegatedUnitMeaning | crates/rtcl-parser/src/compiler.rs:116-212 | So they are for every source whose doubled `!` stand over comparisons or negations or are conditions, where the branches on those can be read |
| Units.BitUnitMeaning | crates/rtcl-parser/src/compiler.rs:116-212 | For source whose doubled `!` all stand over comparisons or negations, in conditions too, there is no premise about runs: the source alone decides that the optimised unit does what the script means |
| Units.DraftOptimised | crates/rtcl-parser/src/compiler.rs:154-159 | Optimising keeps the outcomes of every drafted unit, wherever its `continue`s are aimed |
| Units.UnfusedUnitMeaning | crates/rtcl-ir/src/bytecode.rs:806-813 | And from there to the expanded unit, whatever commands raise, errors compared without their trails, if no `for` or `foreach` runs in a next script |
| Units.TameIsFlat | crates/rtcl-ir/src/bytecode.rs:806-813 | What the expansion asks for is a matter of runs: a unit whose own runs keep next scripts free of loops is flat once optimised |
| Units.OptimisedFlat | crates/rtcl-ir/src/bytecode.rs:806-813 | Such a source is drafted and optimised to flat code |
| Negating.NegationsLost | crates/rtcl-ir/src/bytecode.rs:1285-1291 | `expr {!!n}`, compiled: the unit gives 0 or 1 and the optimised one gives n; the two mean the same exactly when n is 0 or 1 |
| Negating.DoubtsLost | crates/rtcl-ir/src/bytecode.rs:1285-1291 | `if {!!$x} {}`, compiled, on text that is no boolean: the unit ends with the error of `!`, the optimised one with that of the condition; the two mean the same exactly when those errors are the same |
| Negating.FittingIsNotNeeded | crates/rtcl-ir/src/bytecode.rs:1285-1291 | `expr {!!n}; exit code`, compiled: whatever n is the optimised unit means the same, though the negations fit only when n is 0 or 1 |
| Expansions.MarkDecides | crates/rtcl-vm/src/interp/vm_exec.rs:2280-2284 | A `{*}` call takes exactly the operands since its mark when the register still holds the depth at that mark |
| Expansions.OuterMarkLost | crates/rtcl-vm/src/interp/vm_exec.rs:2351-2363 | With a second `{*}` call among its operands it does not: the outer call loses the operand in front |

## Left out

- PassSoundness.PeepholeKeepsMeaning: the premise about negations is about runs and sufficient; it is not needed (Negating.FittingIsNotNeeded). Where it fails the windows have their exact conditions in Windows.DoubleNot and Windows.DoubleNotBranch, and Stacks.NegatedFits and Stacks.BitsFit are conditions on the script. Loops still open at a normal end are not compared; compiled units leave none (Stacks.EndsBalanced).
- Units.UnfusedUnitMeaning: one way, because the other is false: a script with a loop in a next script may still behave, when no run reaches the loop (Units.FlatIsNotNeeded). Rerouting.Rerouted is one that does not, and UnfusedRuns.SkippedDecides says exactly when a `continue` is rerouted.
- Units.UnitMeaning: the premise about negations is about runs; Units.NegatedUnitMeaning asks it of the source except that branches can be read, Units.BitUnitMeaning of the source alone.
- Units.OptimisedMeaning: the same premise, for the same reason.
- Units.NegatedUnitMeaning: that the branches on doubled negations can be read is about runs; Negating.DoubtsLost is a unit where they cannot.
- Windows.Mirrored: how a host compares texts is not modelled, so their symmetry is asked of it.
- UnfusedRuns.UnfusedKeepsMeaning: trails are not compared, because they differ (Rerouting.RegionLeftBehind); UnfusedSoundness.UnfusedExactly compares them where no loop-closing superinstruction occurs.
- Stacks.PlaceDecidesAnyway: with a misaimed `continue` the kinds of the open regions are not fixed by the place, only their number and sites.
- Programs.CompiledMeaning: error outcomes are compared without their trails, because the evaluator has no regions; which regions and site a state has is Stacks.PlaceDecides. A script with a misaimed `continue` is outside, since Misaimed.AimIsNeeded is one that has no such theorem; Compiled.ContinueLands says which `continue`s are aimed.
- Expansions.OuterMarkLost: `{*}` calls are in the machine; the compiler's theorem is about commands without `{*}`.
- Units.CompileUnit: takes literals in 64 bits and one list per foreach group, which the types of the source guarantee.
- Typing.CommandsShaped: the table of shapes and the sites are fields of the compiler here, of the bytecode in the source.
- Compilers.ExprCodegen.ParseBinary: the seven left-associative levels are one method with the level as parameter.
- Heaps.Heap.Append: of the ways to mutate a list, appending and replacing; floats are not among the representations.
- Heaps.Heap.Insert: dictionaries in insertion order; the unordered variant promises no order for its string.
- Heaps.Heap.AsStr: strings are sequences of bytes; the rendering of floats is left out.
- Simulation.ExecMapped: the step budget charged on back edges is not modelled.
- ListCodec.ParseElements: the text of the junk message is not modelled, only which error it is; the dictionary variant differs in that text alone.
- Lexing.Tokenize: a fraction keeps its text, its floating-point value is not modelled; the compiler takes its tokens with names resolved and bracketed scripts parsed.
- LexingFacts.TokensReadBack: fractions are written as their own text, and array elements are not written; Lexemes.LexExactly covers every token.
- Recognising commands and words, the constant pool and the locals table: parsed source arrives with commands recognised and names resolved.
- The compiler's loop contexts: they record targets that nothing reads.
- Deferred redispatch after a redefined built-in, traces, and the text of error messages.
- 32-bit overflow of indices and spans, and pools past 65535 entries.
- The JIT, the WebAssembly back end, channels, the command line and the tree-walking interpreter.
