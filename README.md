# A verified model of a compiler for a small Rust-like language

The modelled system is a compiler that takes programs in a small Rust-like
language (`fn`, `let`, `struct`, `type` aliases, fixed-size arrays, `if`,
`while`, `for`, integer, boolean and float values) and emits x86-64
assembly for the GNU assembler as a list of text lines, optionally passed
through two post-emission optimizers. This project models its core as
Dafny modules, one per component, and proves properties of each.

- `Text` holds the string primitives the compiler relies on:
  `std::to_string`, `std::stoll`/`std::stoi`, substring search, trimming,
  splitting on blanks and on newlines, each with its partner (a parser for
  every printer, a rejoin for every split).
- `Tokens`, `Scanning`: the token kinds, the token pretty-printer and the
  hand-written lexer. `Scanning.Scanner` is a class whose `NextToken` advances
  a cursor over the input; it is proved against a function `Lex`, and every
  step of `Lex` is proved to skip only white space and to return a token
  whose text is exactly the characters it consumed.
- `Ast`, `Parsing`, `ParserSpec`, `ParserProperties`: the syntax tree, the
  operator-symbol map and the recursive-descent parser with precedence
  climbing. `Parsing.Parser` is a class over the token sequence and a
  position. Each `parse*` method is proved to agree with the matching
  function of `ParserSpec`. `ParserProperties` proves what the grammar
  promises: precedence and left associativity, the `||` and prefix-operator
  quirks, that no expression starts with `**`, that `+=` and `-=`
  desugar to an assignment, and that a program parses exactly when its
  items reach the end of the input.
- `SemanticTypes`, `Environments`, `ProtoAst`, `TypeChecking`: the type tags
  with their name↔tag mapping, the scoped symbol environment (a stack of
  maps with shadowing, as a class over `seq<map<string, T>>`), and the
  prototype type checker with its fatal errors.
- `Layout`, `Planner`: struct layout arithmetic, alias chasing, array
  element counts, and the slot-counting frame planner that sizes every
  function's stack frame before code generation.
- `CodeGenSpec`, `CodeGen`, `CodeGenProperties`, `DagCache`: the code
  generator. `CodeGenSpec` defines it as a function from the generator's
  state and an AST node to the new state (output lines, stack offset,
  labels, the last expression's type, the scopes and the expression cache).
  `CodeGen.GenCodeVisitor` is a class whose `visit` methods each agree with
  that function. `DagCache` is the common-subexpression cache keyed by
  expression signatures.
- `Peephole`: the fixed-point peephole rewriter with its five rules, bounded
  at five passes.
- `BasicBlocks`: basic-block segmentation. Blocks start at labels and end
  at branches and returns, and the flattened blocks give back the
  non-empty lines of the input, in order.
- `Dag`: local value numbering over moves and arithmetic, with hash-consed
  constant, register and operation nodes.
- `CodeOptimization`: the coordinator that runs both passes and keeps the
  instruction-count statistics.
- `Wrappers`: the `Option` and `Result` types used throughout.

## Model

| member | source | states |
|---|---|---|
| SemanticTypes.Ordinal | Prueba_gencode_1/semantic_types.h:15 | every tag has a position in the table of names |
| SemanticTypes.StringToType | Prueba_gencode_1/semantic_types.h:36-46 | a recognised name is the tag's own name or the legacy spelling `int` of `i32`; anything else is NOTYPE |
| SemanticTypes.StringToTypeRoundTrip | Prueba_gencode_1/semantic_types.h:36-49 | reading back the printed name of any tag gives that tag |
| SemanticTypes.NumericTags | Prueba_gencode_1/semantic_types.h:32-34 | a tag is numeric exactly when it is not NOTYPE, VOID or BOOL |
| SemanticTypes.TypeNamesDistinct | Prueba_gencode_1/semantic_types.h:49 | no two tags share a printed name |
| SemanticTypes.Type.constructor | Prueba_gencode_1/semantic_types.h:20 | a new type is NOTYPE |
| SemanticTypes.Type.FromTag | Prueba_gencode_1/semantic_types.h:21 | a type built from a tag carries that tag |
| SemanticTypes.Type.SetBasicType | Prueba_gencode_1/semantic_types.h:25-30 | succeeds exactly for a recognised name and then holds its tag; on failure the type is unchanged |
| SemanticTypes.MatchIsEquivalence | Prueba_gencode_1/semantic_types.h:23 | type matching is reflexive, symmetric and transitive |
| Ast.BinopToChar | ast.cpp:10-24 | every operator has a non-empty spelling other than `?` |
| Ast.BinopCodeToChar | ast.cpp:10-26 | an enumeration value in range prints as its operator; any other value prints `?` |
| Ast.BinopToCharInjective | ast.cpp:10-27 | distinct operators print differently |
| Ast.AllOpsComplete | ast.cpp:10-27 | the enumeration lists every operator exactly once |
| Tokens.MakeToken | token.cpp:10-11 | a token built from a kind alone has empty text |
| Tokens.MakeCharToken | token.cpp:13-14 | a token built from a character has that one character as text |
| Tokens.MakeSubstrToken | token.cpp:16-17 | the text is the `n` characters from `first`, cut short at the end of the source |
| Tokens.PrintRaw | token.cpp:24-107 | a kind in range prints as its case; an out-of-range value prints as UNKNOWN with the text |
| Tokens.PrintPtr | token.cpp:110-113 | a null token prints `TOKEN(NULL)`; any other prints as the token itself |
| Tokens.PrintShowsText | token.cpp:27-81 | a kind with text prints its name and its text, so the text appears in the output |
| Tokens.PrintIgnoresText | token.cpp:84-93 | the primitive type kinds, END and AND_LEGACY print without their text |
| Tokens.PrintNames | token.cpp:27-93 | a string literal prints under the name STRING; END and I32 print bare |
| Tokens.PrintKeepsText | token.cpp:27-101 | for a kind with text, two tokens that print alike have the same text |
| Environments.InnermostIndex | Prueba_gencode_1/environment.h:14-22 | the result is the innermost scope binding the name, or -1 when none does |
| Environments.Find | Prueba_gencode_1/environment.h:78-96 | a name is found exactly when some scope binds it |
| Environments.Declared | Prueba_gencode_1/environment.h:50-56 | declaring pushes a first scope when there is none and leaves every outer scope as it was |
| Environments.Assigned | Prueba_gencode_1/environment.h:58-65 | assigning keeps the number of scopes |
| Environments.Environment.constructor | Prueba_gencode_1/environment.h:25 | a new environment has no scopes |
| Environments.Environment.FindScopeIndex | Prueba_gencode_1/environment.h:14-22 | the search from the innermost scope returns the innermost scope binding the name, or -1 |
| Environments.Environment.Clear | Prueba_gencode_1/environment.h:27-29 | clearing drops every scope |
| Environments.Environment.PushScope | Prueba_gencode_1/environment.h:31-33 | a new empty scope goes on top |
| Environments.Environment.PopScope | Prueba_gencode_1/environment.h:35-40 | popping fails exactly on an empty stack, leaving it as it was; otherwise only the innermost scope goes |
| Environments.Environment.Depth | Prueba_gencode_1/environment.h:42-44 | the depth is the number of scopes |
| Environments.Environment.Empty | Prueba_gencode_1/environment.h:46-48 | empty exactly when there is no scope |
| Environments.Environment.Declare | Prueba_gencode_1/environment.h:50-56 | declaring always succeeds and binds the name in the innermost scope |
| Environments.Environment.Assign | Prueba_gencode_1/environment.h:58-65 | assignment succeeds exactly when the name is visible, and a failed one changes nothing |
| Environments.Environment.Contains | Prueba_gencode_1/environment.h:67-69 | true exactly when some scope binds the name |
| Environments.Environment.ContainsCurrentScope | Prueba_gencode_1/environment.h:71-76 | true exactly when the innermost scope binds the name |
| Environments.Environment.Lookup | Prueba_gencode_1/environment.h:78-96 | the value found is bound to the name in some scope, the innermost one that binds it |
| Environments.FindAfterDeclare | Prueba_gencode_1/environment.h:50-56 | after a declaration the name is found with its new value and every other name as before |
| Environments.FindAfterAssign | Prueba_gencode_1/environment.h:58-65 | assigning a visible name changes what it is bound to and nothing else |
| Environments.PopRestoresShadowed | Prueba_gencode_1/environment.h:35-40 | popping a block's scope makes the outer bindings visible again |
| Environments.InnermostWins | Prueba_gencode_1/environment.h:78-96 | a binding in the innermost scope hides every outer one |
| Text.IntToStringParses | optimizer.cpp:435-438 | reading a number from the decimal numeral of any integer, followed by a non-digit, gives back that integer |
| Text.IntToStringInjective | optimizer.cpp:435-438 | distinct integers have distinct numerals |
| Text.WordsCons | optimizer.cpp:17 | word extraction skips the white space before a word, reads the whole word and continues after it |
| Text.TrimLeftDrops | optimizer.cpp:451-456 | trimming drops only leading blanks and tabs, and leaves a non-blank first character when there is one |
| Text.SplitJoin | visitor.cpp:176-178 | reading back the lines of written text gives the lines written, when none holds a newline |
| Text.ParseIntIn | optimizer.cpp:435-438 | a value read within the target range is exactly the one `stoll` reads; out of range there is none |
| Text.ParseUnsigned | optimizer.cpp:435-438 | `stoll` of text that starts with digits reads the value of its digit prefix |
| Text.ParseNegative | optimizer.cpp:435-438 | `stoll` of `-` and digits reads the negated value |
| Text.NumeralParses | optimizer.cpp:435-438 | reading back the numeral of a non-negative integer, followed by a non-digit, gives the integer |
| Text.NegativeNumeralParses | optimizer.cpp:435-438 | the same for negative integers |
| Text.WordsOfBlank | optimizer.cpp:253-255 | a blank line yields no words |
| Text.WordsOfThree | optimizer.cpp:253-255 | `" op a b"` yields the three words in order |
| Text.WordsOfTwo | optimizer.cpp:253-255 | `" op a"` yields the two words in order |
| Text.TrimLeft | optimizer.cpp:451-456 | trimming leaves an empty line exactly when the line was empty |
| Text.SplitLines | visitor.cpp:175-182 | no line read back holds a newline |
| Text.NonEmpty | visitor.cpp:178-180 | the kept lines are non-empty and no more than the lines read |
| Text.NatToString | optimizer.cpp:296 | the numeral of a natural number is non-empty and all digits |
| Text.IntToString | optimizer.cpp:296 | `to_string` gives a non-empty numeral that starts with `-` exactly for a negative number, and is all digits otherwise |
| Text.ParseInt | optimizer.cpp:434-438 | a blank or empty text reads no number; a text starting with a digit reads a number that is not negative; a negative number is read only after a leading `-` |
| Text.Stoll | optimizer.cpp:434-438 | `stoll` reads what the number reader reads exactly when that value fits a `long long`, and otherwise throws |
| Text.Words | optimizer.cpp:17 | extracted words are never empty and hold no white space |
| Text.JoinLines | visitor.cpp:163-178 | the buffered text is empty exactly when no line was written; otherwise it starts with the first line and ends with a newline |
| Peephole.OpcodeNames | optimizer.cpp:421-429 | each recognised opcode is exactly one mnemonic (`movq`, `movl`, `addq`, `subl`, `cmpq`, `imulq`, …) |
| Peephole.StripComma | optimizer.cpp:259 | dropping the trailing comma removes exactly one final `,` or nothing |
| Peephole.ImmediateValue | optimizer.cpp:435-438 | an immediate's value, when `stoll` accepts it, lies in the 64-bit signed range |
| Peephole.ImmediateOf | optimizer.cpp:431-438 | the operand `$n` written for any 64-bit `n` reads back as `n` |
| Peephole.Erase | optimizer.cpp:261 | erasing position `i` keeps the lines before it and shifts the ones after it down by one |
| Peephole.RedundantMove | optimizer.cpp:248-267 | the rule only ever erases the line or leaves it |
| Peephole.CombineConstants | optimizer.cpp:269-320 | the rule fuses two lines only for a `movq`/`movl` followed by an `add` or `sub`; otherwise it does nothing or throws |
| Peephole.Fold | optimizer.cpp:292-297 | with both immediates readable the two lines fuse; an unreadable one throws |
| Peephole.DeadMove | optimizer.cpp:322-348 | the rule only ever erases the first line or leaves it |
| Peephole.StrengthReduction | optimizer.cpp:350-383 | the rule only ever rewrites the line in place |
| Peephole.ZeroComparison | optimizer.cpp:385-419 | the rule only ever rewrites the second line, keeping the move |
| Peephole.Decide | optimizer.cpp:216-241 | at the last line only the one-line rules can fire |
| Peephole.Perform | optimizer.cpp:261-411 | erasing removes exactly position `i`; fusing puts the new line at `i` in place of the two lines; no rewrite changes the length by more than one |
| Peephole.ApplyRules | optimizer.cpp:216-241 | a rewrite at `i` removes at most one line |
| Peephole.Sweep | optimizer.cpp:216-242 | a pass never lengthens the list; a pass that reports no change returns the list as it was; the only error is the one `stoll` throws |
| Peephole.SweepOn | optimizer.cpp:216-242 | after a rule's outcome the rest of the pass keeps those guarantees |
| Peephole.Passes | optimizer.cpp:212-243 | at most five passes run; the list never grows; stopping before the fifth pass means one more pass would change nothing |
| Peephole.Optimization | optimizer.cpp:204-246 | between one and five passes, the list never grows, and fewer than five passes leave a list on which a further pass changes nothing |
| Peephole.Optimize | optimizer.cpp:204-246 | the loop returns exactly the list `Optimization` describes, or its error |
| Peephole.Pass | optimizer.cpp:216-242 | the `for` loop over the positions computes exactly one `Sweep` |
| Peephole.DecodeLine | optimizer.cpp:253-255 | a line `" op src, dst"` splits into the opcode, `src,` and `dst` |
| Peephole.RulesAt | optimizer.cpp:216-241 | the rules at a position depend only on the two lines decoded there |
| Peephole.RedundantMoveErased | optimizer.cpp:257-263 | `movq X, X` is erased whatever surrounds it |
| Peephole.DeadMoveErased | optimizer.cpp:335-344 | of two moves into the same destination the first is erased, even when the destination is memory or the second move reads it |
| Peephole.ConstantsCombined | optimizer.cpp:282-315 | `mov $x, D; add $y, D` becomes `mov $(x+y), D`, and with `sub` `mov $(x-y), D`, in place of the two lines |
| Peephole.ConstantsFolded | optimizer.cpp:283-314 | with readable immediates and equal destinations the rule fuses to the folded move |
| Peephole.StrengthReduced | optimizer.cpp:361-379 | `add $1, D` becomes `inc D`, `sub $1, D` becomes `dec D` and `imul $2, D` becomes `shl $1, D`, in place |
| Peephole.NotMoveSkips | optimizer.cpp:258-336 | the rules that start from a move do not fire on any other line |
| Peephole.ZeroComparisonTested | optimizer.cpp:394-413 | `mov $0, D; cmp $0, D` keeps the move and turns the comparison into `test D, D` |
| Peephole.QuietSweep | optimizer.cpp:216-242 | a list on which no rule fires comes out of a pass unchanged |
| Peephole.QuietListKept | optimizer.cpp:204-246 | a list on which no rule fires is returned as it is after one pass |
| Peephole.Decode | optimizer.cpp:253-255 | a line splits into an opcode and two operands without white space, the opcode's code is that of its name, and a line with no opcode has no operands |
| Peephole.Folded | optimizer.cpp:292-297 | the folded line is ` op $n, dst`, and with a non-empty opcode and destination without white space it reads back as that opcode with the immediate `$n,` and the destination |
| BasicBlocks.BranchWords | optimizer.cpp:492-507 | a first word is a branch exactly when it is `jmp`, `je`, `jne`, `jl`, `jg`, `jle`, `jge` or `call`, and a return exactly when it is `ret` or `leave` |
| BasicBlocks.IdentifyBasicBlocks | optimizer.cpp:444-486 | the loop over the lines returns exactly the blocks `Blocks` describes |
| BasicBlocks.SegmentAdvance | optimizer.cpp:450-478 | the blocks of a list are what its first line closes followed by the blocks of the rest |
| BasicBlocks.SegmentShape | optimizer.cpp:450-483 | from an open block, the blocks produced are well formed and maximal, and continue the open block with the non-empty lines in order |
| BasicBlocks.BlocksShape | optimizer.cpp:444-486 | every block is non-empty, has a label only as its first line and a jump, call or return only as its last, carries its label line as its label, and ends only where a closing line or a following label forces it; together the blocks hold every non-empty line in order |
| BasicBlocks.Blocks | optimizer.cpp:444-486 | every block is well formed, and the blocks, concatenated, are the non-empty lines of the input in order |
| BasicBlocks.Segment | optimizer.cpp:450-483 | no block is empty, and there are at most as many blocks as lines, plus one for a block already open |
| Dag.ExtractRegister | optimizer.cpp:178-194 | the register name is never longer than the operand |
| Dag.ExtractPlainRegister | optimizer.cpp:178-184 | a plain register operand loses its `%` and nothing else |
| Dag.ExtractBaseRegister | optimizer.cpp:185-191 | a memory operand `off(%base)` names its base register |
| Dag.ExtractUnclosed | optimizer.cpp:186-189 | without a closing parenthesis the base register runs to the end of the operand |
| Dag.StackSlotIsRbp | optimizer.cpp:185-191 | a store into the stack frame `-8(%rbp)` counts as a write to `rbp` |
| Dag.ConstantNode | optimizer.cpp:92-103 | the node returned exists and the node list only grows |
| Dag.ConstantNodeInv | optimizer.cpp:92-103 | looking up an immediate keeps the graph invariant and returns a constant node holding that immediate |
| Dag.RegisterNode | optimizer.cpp:105-117 | the node returned exists and the node list only grows |
| Dag.RegisterNodeInv | optimizer.cpp:105-117 | looking up a register keeps the invariant, maps the register to the node returned and leaves the constants alone |
| Dag.OperandNode | optimizer.cpp:33-37 | the source operand's node exists and the node list only grows |
| Dag.SameNodeCompares | optimizer.h:30-37 | two nodes are equal exactly when they have the same kind, the same operation and the same operands in order; value and labels are not compared, and the relation is symmetric |
| Dag.FindOperationSameNode | optimizer.cpp:119-129 | the search's match test on a node is node equality with the operation node that would be created for that name and those operands |
| Dag.FindOperation | optimizer.cpp:119-129 | the result is the first operation node with that name and those operands, and none means no node matches |
| Dag.OperationNode | optimizer.cpp:75-139 | the operation node returned exists and the node list only grows |
| Dag.OperationNodeInv | optimizer.cpp:71-79 | an operation is looked up before it is created, so no two operation nodes are equal; the new node waits for its label |
| Dag.Attach | optimizer.cpp:40-88 | labelling a node changes no node count |
| Dag.AttachInv | optimizer.cpp:82-88 | mapping the register and adding its label restores the full invariant |
| Dag.OpNameOfMnemonic | optimizer.cpp:72-73 | the operation name is the mnemonic without its size letter, with `imul` renamed `mul` |
| Dag.Step | optimizer.cpp:16-90 | one line keeps every node index in range |
| Dag.Parse | optimizer.cpp:16-19 | one line keeps every node index in range |
| Dag.Build | optimizer.cpp:10-14 | every line keeps every node index in range |
| Dag.EmptyInv | optimizer.cpp:172-176 | a cleared optimizer satisfies the graph invariant |
| Dag.StepInv | optimizer.cpp:16-90 | each line keeps the graph acyclic and hash-consed, every register mapped to a node that carries it as a label, and every immediate with exactly one node |
| Dag.BuildInv | optimizer.cpp:10-14 | building from a cleared optimizer keeps that invariant, so every operand the generator names has a label |
| Dag.ArithmeticNumbered | optimizer.cpp:58-88 | after an arithmetic line the destination is mapped to the operation over its previous node and the source's node |
| Dag.OperationShared | optimizer.cpp:75-79 | the same operation over the same operand nodes is numbered once: no node is added when it exists |
| Dag.StepExtends | optimizer.cpp:16-90 | a line never removes or changes a node except by adding labels, keeps every constant's node and every register mapped |
| Dag.BuildExtends | optimizer.cpp:10-14 | the same holds across a whole list |
| Dag.StepClean | optimizer.cpp:16-90 | labels come only from the lines' operands, and every operation is an `add`, `sub` or `mul` |
| Dag.BuildClean | optimizer.cpp:10-14 | lines without a given character give labels without it |
| Dag.Emit | optimizer.cpp:145-166 | a node yields at most one line |
| Dag.GenerateCount | optimizer.cpp:141-170 | one line per labelled constant or two-operand operation, none for register or unlabelled nodes, so never more lines than nodes |
| Dag.LastLabelWritten | optimizer.cpp:148-151 | a constant held by several registers is written to the last of them alone |
| Dag.GenerateShape | optimizer.cpp:141-170 | every generated line is a move or an `add`/`sub`/`mul` and never ends in `:` |
| Dag.DagOptimizer.constructor | optimizer.h:42-56 | a new optimizer is empty and satisfies the invariant |
| Dag.DagOptimizer.Clear | optimizer.cpp:172-176 | clearing empties all three tables |
| Dag.DagOptimizer.GetConstantNode | optimizer.cpp:92-103 | the state after the call is `ConstantNode`'s, and the node holds the immediate |
| Dag.DagOptimizer.GetRegisterNode | optimizer.cpp:105-117 | the state after the call is `RegisterNode`'s, and the register maps to the node returned |
| Dag.DagOptimizer.FindOperationNode | optimizer.cpp:119-129 | the loop returns the first matching operation node, or none when no node matches |
| Dag.DagOptimizer.CreateOperationNode | optimizer.cpp:131-139 | exactly one unlabelled operation node is appended and the maps are untouched |
| Dag.DagOptimizer.SourceNode | optimizer.cpp:33-69 | the source operand's node is the one `OperandNode` gives |
| Dag.DagOptimizer.Label | optimizer.cpp:40-46 | the state after labelling is `Attach`'s |
| Dag.DagOptimizer.ParseInstruction | optimizer.cpp:16-90 | the state after a line is `Parse`'s and the invariant holds |
| Dag.DagOptimizer.BuildDag | optimizer.cpp:10-14 | the state after the list is `Build`'s and the invariant holds |
| Dag.DagOptimizer.GenerateOptimizedCode | optimizer.cpp:141-170 | the loop returns exactly the lines `Generate` gives, never more lines than nodes |
| Dag.Generate | optimizer.cpp:141-170 | one line per labelled constant or two-operand operation, so never more lines than nodes |
| Dag.DecodeAvoids | optimizer.cpp:16-22 | a line without a given character yields operands without it |
| CodeOptimization.Replace | optimizer.cpp:553-563 | a run is either kept as it is or replaced by its non-empty value-numbered form, which is strictly shorter |
| CodeOptimization.Peeped | optimizer.cpp:520-524 | the peephole stage never lengthens the list, and when it is disabled the list passes through |
| CodeOptimization.FlushCount | optimizer.cpp:552-564 | flushing a run keeps the output so far, adds at most the run's lines, and the lines it saves are exactly what `dagReductions` gains |
| CodeOptimization.BlockPass | optimizer.cpp:536-584 | across a block, lines kept plus lines saved equal the lines read, and no more lines come out than went in |
| CodeOptimization.BlocksPassCount | optimizer.cpp:531-585 | across all blocks, lines kept plus lines saved equal the lines in the blocks |
| CodeOptimization.DagStage | optimizer.cpp:527-586 | the value-numbering stage never lengthens the list of non-empty lines and `dagReductions` grows by exactly the number of lines it removed |
| CodeOptimization.Optimization | optimizer.cpp:513-590 | `optimizeCode` throws only when the peephole pass does, never lengthens the list, records the input and output sizes and the peephole saving, and grows `dagReductions` by exactly what value numbering removed |
| CodeOptimization.DisabledPasses | optimizer.cpp:520-527 | with value numbering off the result is the peephole output, and with both passes off it is the input itself |
| CodeOptimization.Barriers | optimizer.cpp:543-549 | the barrier lines of a list are a subsequence no longer than it |
| CodeOptimization.BarriersAppend | optimizer.cpp:543-549 | the barriers of two lists joined are the barriers of each, in order |
| CodeOptimization.GeneratedNotBarrier | optimizer.cpp:151-164 | a line the value numbering writes is never a barrier |
| CodeOptimization.DagRunPlain | optimizer.cpp:553-555 | value numbering a run of plain lines, none of whose operands holds `:`, builds a consistent graph and writes no barrier line |
| CodeOptimization.BlockPassBarriers | optimizer.cpp:536-584 | a block's barrier lines come out unchanged and in order |
| CodeOptimization.BlocksPassBarriers | optimizer.cpp:531-585 | the same across all blocks |
| CodeOptimization.BarriersKept | optimizer.cpp:513-590 | value numbering passes every label, directive, push, pop, call, compare, test, jump, `leave`, `ret` and `leaq` line through unchanged and in order |
| CodeOptimization.CodeOptimizer.constructor | optimizer.h:152-175 | both passes start enabled with all counters 0 |
| CodeOptimization.CodeOptimizer.SetDagOptimization | optimizer.h:158 | sets the value-numbering switch and nothing else |
| CodeOptimization.CodeOptimizer.SetPeepholeOptimization | optimizer.h:159 | sets the peephole switch and nothing else |
| CodeOptimization.CodeOptimizer.GetStats | optimizer.h:169 | returns the statistics |
| CodeOptimization.CodeOptimizer.ResetStats | optimizer.h:170 | zeroes the statistics and keeps the switches |
| CodeOptimization.CodeOptimizer.OptimizeRun | optimizer.cpp:553-563 | a run through a cleared value-numbering object comes out as `Replace` describes |
| CodeOptimization.CodeOptimizer.FlushRun | optimizer.cpp:552-564 | a pending run is replaced and its saving added to `dagReductions`; no other statistic changes |
| CodeOptimization.CodeOptimizer.OptimizeCode | optimizer.cpp:513-590 | the result and the new statistics are exactly `Optimization`'s for the current switches |
| CodeOptimization.CodeOptimizer.DagStageOf | optimizer.cpp:527-586 | the loop over the blocks computes exactly `DagStage` |
| CodeOptimization.CodeOptimizer.BlockStage | optimizer.cpp:536-584 | the loop over one block's lines computes exactly `BlockPass` |
| CodeOptimization.DagRun | optimizer.cpp:553-555 | a run of plain lines, none of whose operands holds `:`, is value-numbered into lines none of which is a barrier |
| DagCache.Signature | visitor.cpp:72-103 | an expression has a non-empty signature exactly when it is a literal, an identifier or a `+ - * /` operation, and an operation's signature is `BIN:(L)op(R)` over its children's |
| DagCache.SignatureNamesReads | visitor.cpp:83-141 | a cacheable expression's signature contains `ID:x` for every variable `x` it reads, so assigning any of them reaches its entry |
| DagCache.CallsCollide | visitor.cpp:96-102 | `f() + 1` and `g() + 1` differ but share the signature `BIN:()+(NUM:1)`, because a call's own signature is empty |
| DagCache.CallArgumentNotNamed | visitor.cpp:101-136 | a variable read only inside a call argument is absent from the signature, so assigning it leaves the entry in place |
| DagCache.PrefixNameInvalidated | visitor.cpp:131-136 | invalidation matches text, not names: assigning `x` also drops an entry that reads only `xy` |
| DagCache.Lookup | visitor.cpp:106-114 | an entry is found exactly when the cache is on, the signature non-empty and present, and it is the stored entry |
| DagCache.Save | visitor.cpp:117-125 | with the cache on and a non-empty signature the entry is stored under it, replacing any other; otherwise nothing changes |
| DagCache.Invalidated | visitor.cpp:128-142 | with the cache on exactly the keys containing `ID:name` go and every other entry stays as it was; with it off nothing changes |
| DagCache.InvalidatedForgetsReaders | visitor.cpp:128-142 | after assigning `x` no cacheable expression that reads `x` is found in the cache |
| Layout.Chase | visitor.cpp:32-37 | an alias chain that ends within the steps allowed stops at a name that is not an alias: the name itself or some alias's target |
| Layout.ChaseMore | visitor.cpp:33-35 | more steps do not change a chain that has already ended |
| Layout.Resolve | visitor.cpp:32-37 | resolving gives the name itself or some alias's target, leaves a name that is not an alias as it is, and without alias cycles ends at a name that is not an alias |
| Layout.ResolveStep | visitor.cpp:33-35 | resolving an alias is resolving its target |
| Layout.MutualAliasesCycle | visitor.cpp:32-37 | two aliases naming each other form a cycle, on which `resolve_alias` never returns |
| Layout.FieldBytes | visitor.cpp:954-962 | an array field takes 4 bytes per element whatever its element type; `i32`, `bool`, `u32` and `f32` take 4 bytes; anything else 8 |
| Layout.ParsedArrayCount | visitor.cpp:955-958 | an array type written `T[digits]` is an array whose count is the number written when it fits an `int`, and 0 (where `stoi` throws `out_of_range`) when it does not |
| Layout.TruncDiv | visitor.cpp:1130 | C division truncates toward zero and agrees with Dafny's for a non-negative dividend |
| Layout.AlignedSizeBounds | visitor.cpp:1130-1133 | a non-negative size rounds up to the next multiple of 8, and a positive size takes at least one slot |
| Layout.LayoutOfStep | visitor.cpp:950-965 | each field starts where the previous ones end |
| Layout.LayoutSize | visitor.cpp:964-966 | a struct's size is the plain sum of its field sizes, with no padding |
| Layout.LayoutKeys | visitor.cpp:951-952 | the layout records exactly the declared field names, each with a type |
| Layout.LayoutOffset | visitor.cpp:951-963 | a field declared once, or last, sits at the sum of the sizes before it and keeps its declared type |
| Layout.SameLayoutWithoutAliases | visitor.cpp:953 | where no field type is an alias, the planner and the emitter compute the same layout |
| Layout.AliasedFieldLayoutsDiffer | visitor.cpp:953 | a field of an alias of `i32` takes 4 bytes in the planner's layout and 8 in the emitter's |
| Layout.Globals.constructor | visitor.cpp:29-30 | the alias and layout tables start empty |
| Layout.Globals.ResolveAlias | visitor.cpp:32-37 | the loop returns the end of the alias chain, a name that is not an alias |
| Layout.CountText | visitor.cpp:355-358 | the text read as the count lies after the `[`; when the first `]` comes after the `[`, it is exactly the text between them and holds no `]` |
| Layout.ArrayCount | visitor.cpp:955-958 | an array count always fits an `int`, and a type that is not an array has count 0 |
| Layout.AlignedSize | visitor.cpp:364 | a non-negative size rounds up to at least itself and less than 8 more |
| Layout.SlotsFor | visitor.cpp:1130-1133 | a non-negative byte count takes the fewest 8-byte slots that hold it |
| Layout.LayoutOf | visitor.cpp:950-965 | the last field declared is recorded with its declared type at the offset where its bytes end the struct |
| Planner.AliasesAfterOverride | visitor.cpp:1223-1226 | registering aliases overrides the table with the last target given for each alias |
| Planner.AliasesAfterTwice | visitor.cpp:229-233 | registering the same aliases again, as the generator does after the planner, changes nothing |
| Planner.PlannedLayoutsStep | visitor.cpp:1085-1087 | the struct declarations are registered one after the other, in order |
| Planner.StmsSlotsAppend | visitor.cpp:1109-1119 | slots accumulate: a statement list needs what its parts need |
| Planner.SiblingBlocksAdd | visitor.cpp:1115-1119 | sibling blocks share nothing: two blocks cost the sum of their statements' slots |
| Planner.LetSlotsBounds | visitor.cpp:1122-1135 | a `let` never takes a negative number of slots, and takes exactly one unless its resolved type is an array or a known struct |
| Planner.ArraySlots | visitor.cpp:1125-1130 | an array of `n` elements takes `(4n + 7) / 8` slots when `n` fits an `int`, and none when `stoi` would throw |
| Planner.FrameBytesBounds | visitor.cpp:273-276 | the reservation is ten slots more than planned, so at least 80 bytes, and a multiple of 16 exactly when the plan is even |
| Planner.TypeCheckerVisitor.constructor | visitor.cpp:1074-1076 | a new planner has no frame sizes and a zero count |
| Planner.TypeCheckerVisitor.Analyze | visitor.cpp:1074-1079 | the aliases and the planner's struct layouts are registered in the shared tables and each function's planned slots are recorded under its name |
| Planner.TypeCheckerVisitor.VisitProgram | visitor.cpp:1081-1095 | aliases, then structs, then globals, then functions, each as its table function says |
| Planner.TypeCheckerVisitor.VisitTypeAliases | visitor.cpp:1082-1084 | the loop registers every alias in order and leaves the layouts alone |
| Planner.TypeCheckerVisitor.VisitStructDecs | visitor.cpp:1085-1087 | the loop registers every planner layout in order |
| Planner.TypeCheckerVisitor.VisitGlobals | visitor.cpp:1088-1090 | global declarations add one slot per variable to the running count |
| Planner.TypeCheckerVisitor.VisitFunDecs | visitor.cpp:1091-1093 | each function's slots are recorded under its name, the count left at 0 |
| Planner.TypeCheckerVisitor.VisitTypeAlias | visitor.cpp:1223-1226 | the alias maps to its target, replacing any earlier one |
| Planner.TypeCheckerVisitor.VisitStructDec | visitor.cpp:1199-1221 | the struct's layout has each field at the running offset, sized after resolving its type, and replaces any earlier layout of that name |
| Planner.TypeCheckerVisitor.FieldSize | visitor.cpp:1205-1214 | a field's size is that of its type after aliases |
| Planner.TypeCheckerVisitor.VisitVarDec | visitor.cpp:1176-1179 | one slot per declared variable |
| Planner.TypeCheckerVisitor.VisitFunDec | visitor.cpp:1097-1103 | a function's slots are its parameter count plus its body's, recorded under its name, and the count returns to 0 |
| Planner.TypeCheckerVisitor.VisitBody | visitor.cpp:1105-1113 | a body adds its declarations' and its statements' slots |
| Planner.TypeCheckerVisitor.VisitStms | visitor.cpp:1115-1119 | a statement list adds each statement's slots |
| Planner.TypeCheckerVisitor.VisitStm | visitor.cpp:1140-1174 | each statement adds its slots: a `for` one for its counter, the others those of their parts |
| Planner.TypeCheckerVisitor.VisitElse | visitor.cpp:1143 | an `else` adds its block's slots, a missing one nothing |
| Planner.TypeCheckerVisitor.VisitLet | visitor.cpp:1122-1138 | a `let` adds the slots of its resolved type, `ceil(bytes/8)` for an array or known struct and one otherwise, then its initialiser's |
| Planner.TypeCheckerVisitor.VisitExp | visitor.cpp:1181-1241 | only struct literals of a known struct add slots, `ceil(size/8)`, with their field initialisers; other expressions add what their parts add |
| Planner.LetSlots | visitor.cpp:1122-1135 | after aliases, an array of `n` elements takes the fewest slots holding `4n` bytes, a known struct the fewest holding its size, anything else one slot; with counts and sizes that are not negative the result is not negative |
| Planner.LiteralSlots | visitor.cpp:1230-1236 | a struct literal of a known struct takes the fewest slots holding the struct's size, and of an unknown one none |
| Planner.ExpSlots | visitor.cpp:1181-1241 | with struct sizes that are not negative an expression never takes a negative number of slots |
| Planner.StmSlots | visitor.cpp:1115-1174 | with alias targets and struct sizes that are not negative, a statement whose own `let` types have no negative count never takes a negative number of slots |
| Planner.FunSlots | visitor.cpp:1097-1103 | under the same conditions a function takes at least one slot per parameter |
| Planner.FrameBytes | visitor.cpp:268-276 | the bytes reserved are a multiple of 8, at least 80 for a plan that is not negative, and a multiple of 16 exactly when the plan is even |
| Planner.AliasesAfter | visitor.cpp:1223-1226 | registering aliases keeps the earlier ones and adds exactly the aliases declared, the last declaration of a name giving its target |
| Planner.PlannedLayouts | visitor.cpp:1199-1221 | registering struct layouts keeps the earlier ones and adds exactly the structs declared, the last declaration of a name giving its layout with sizes taken after aliases |
| Planner.FramesAfter | visitor.cpp:1091-1103 | recording frames keeps the earlier ones and adds exactly the functions declared, the last function of a name giving its slot count |
| CodeGenSpec.GenExp | visitor.cpp:617-1068 | every expression that is generated without error only appends to the stream being written, takes label numbers upwards, keeps scopes, function context, tables, switches and optimizer counters, only removes cache entries, never raises the stack offset when struct sizes are not negative, and leaves it alone unless it contains a struct literal |
| CodeGenSpec.GenId | visitor.cpp:875-910 | an identifier fails exactly when it is neither a local in any scope nor a global; otherwise only appends and leaves the stack offset alone |
| CodeGenSpec.GenBinary | visitor.cpp:617-858 | a binary expression (assignment, `&&`, immediate or general form) only appends and keeps the generator's invariant state |
| CodeGenSpec.GenImmediate | visitor.cpp:734-758 | the literal-right-operand fast path keeps the invariant state and the stack offset |
| CodeGenSpec.GenGeneral | visitor.cpp:760-857 | the push/evaluate/pop form with the integer or float operator keeps the invariant state and the stack offset |
| CodeGenSpec.GenAnd | visitor.cpp:716-732 | short-circuit `&&` with two fresh labels keeps the invariant state and the stack offset |
| CodeGenSpec.GenAssignExp | visitor.cpp:620-713 | assignment as an expression keeps the invariant state; a target that is neither an identifier nor an array element is an error |
| CodeGenSpec.StoreVariable | visitor.cpp:621-676 | storing into a variable fails exactly when the name is neither local nor global; otherwise only appends |
| CodeGenSpec.GenStoreElement | visitor.cpp:678-710 | storing into an array element keeps the invariant state and the stack offset |
| CodeGenSpec.GenElementAddress | visitor.cpp:684-700 | the element address computation keeps the invariant state and the stack offset |
| CodeGenSpec.GenStoreValue | visitor.cpp:700-710 | the stored value's evaluation and the store keep the invariant state |
| CodeGenSpec.GenCall | visitor.cpp:912-945 | a call (alignment, arguments, `call`, stack release) keeps the invariant state and the stack offset |
| CodeGenSpec.GenArgs | visitor.cpp:924-937 | the arguments, last to first, keep the invariant state and the stack offset |
| CodeGenSpec.GenIndex | visitor.cpp:971-992 | an array read keeps the invariant state and the stack offset |
| CodeGenSpec.GenField | visitor.cpp:994-1016 | a field read succeeds exactly when the object is a local identifier whose resolved type has a struct layout, and then only appends |
| CodeGenSpec.FieldBase | visitor.cpp:996-1000 | a found base is the local named by the object identifier |
| CodeGenSpec.GenStructInit | visitor.cpp:1018-1052 | a struct literal keeps the invariant state, only removes cache entries, and with non-negative struct sizes never raises the stack offset |
| CodeGenSpec.GenStructFields | visitor.cpp:1020-1049 | the literal's block and field stores keep the invariant state |
| CodeGenSpec.GenInits | visitor.cpp:1030-1043 | the field initialisers in order keep the invariant state |
| CodeGenSpec.GenStm | visitor.cpp:312-595 | every statement that is generated without error only appends and keeps the invariant state, including the scope depth, and with non-negative sizes never raises the stack offset |
| CodeGenSpec.GenBlock | visitor.cpp:326-335 | a block pushes and pops one scope, so the depth is kept |
| CodeGenSpec.GenStms | visitor.cpp:319-323 | a statement list keeps the invariant state |
| CodeGenSpec.GenOptExp | visitor.cpp:525-549 | an optional expression (absent: 0 in `%rax`) keeps the invariant state and the stack offset |
| CodeGenSpec.GenLet | visitor.cpp:337-423 | a `let` (global record outside functions, stack block inside) keeps the invariant state |
| CodeGenSpec.GenLocalLet | visitor.cpp:346-423 | a local `let` keeps the invariant state |
| CodeGenSpec.GenLetInit | visitor.cpp:373-419 | the initialiser (cached or evaluated) and its store keep the invariant state and the stack offset |
| CodeGenSpec.LetValue | visitor.cpp:373-395 | a cache hit reloads, a miss evaluates; either keeps the invariant state |
| CodeGenSpec.Evaluated | visitor.cpp:387-395 | a cache miss is counted, evaluated and remembered, keeping the invariant state |
| CodeGenSpec.GenIf | visitor.cpp:425-451 | an `if` keeps the invariant state |
| CodeGenSpec.ElseThenEnd | visitor.cpp:443-450 | the `else` block and end label keep the invariant state |
| CodeGenSpec.Guarded | visitor.cpp:432-441 | a block under a condition keeps the invariant state |
| CodeGenSpec.GenElse | visitor.cpp:443-448 | the `else` block keeps the invariant state |
| CodeGenSpec.GenWhile | visitor.cpp:453-475 | a `while` keeps the invariant state |
| CodeGenSpec.GenFor | visitor.cpp:477-523 | a `for` pushes a scope for its counter and pops it, so the depth is kept |
| CodeGenSpec.GenForLoop | visitor.cpp:488-519 | the loop body and counter update keep the invariant state |
| CodeGenSpec.GenAssign | visitor.cpp:551-583 | an assignment statement keeps the invariant state |
| CodeGenSpec.StoreAssigned | visitor.cpp:566-582 | the store fails exactly when the name is neither local nor global |
| CodeGenSpec.AddGlobals | visitor.cpp:597-605 | the global table afterwards holds exactly the old globals and the new names |
| CodeGenSpec.GlobalLinesAppend | visitor.cpp:217-225 | one more global adds exactly one `.quad 0` line at the end |
| CodeGenSpec.EmitOutTwice | visitor.cpp:187-189 | two writes to the output stream equal one write of both |
| CodeGenSpec.StorageSize | visitor.cpp:352-362 | only an array or a known struct takes more than 8 bytes; any other type takes 4 bytes exactly when it is `i32`, `u32` or `f32`, and 8 otherwise; an array's size is a multiple of 4 |
| CodeGenSpec.LetOffset | visitor.cpp:364-366 | a local block of non-negative size starts low enough to hold the variable's bytes up to the previous block, with less than 8 bytes to spare |
| CodeGenSpec.LetBody | visitor.cpp:370-419 | the initialiser and its store only append and keep the invariant state; with non-negative struct sizes the stack offset never rises, and without a struct literal it stays |
| CodeGenSpec.StoreLines | visitor.cpp:399-414 | the store is one line or the four-line copy; it ends in `rep movsb` exactly when the size exceeds 8 and no `f32` narrowing applies, and in `movl` exactly when it narrows to `f32` or the size is 4 |
| CodeGenSpec.IntOpLines | visitor.cpp:800-855 | integer code exists except for `**`, `&&` and `=`, which fail with the power message or the unsupported-operator message; every comparison ends by widening `%al` into `%rax` |
| CodeGenSpec.FloatOpLine | visitor.cpp:774-794 | only `+ - * /` have a float instruction, with the `ss` suffix for single precision and `sd` for double; any other operator fails with the float message |
| CodeGenSpec.GenVarDec | visitor.cpp:597-615 | outside a function the globals gain exactly the declared names and nothing else changes; inside, each name takes one slot down, the globals and the scope depth stay |
| CodeGenSpec.GenBody | visitor.cpp:312-324 | a body only appends and keeps the invariant state, and with non-negative sizes it never raises the stack offset |
| CodeGenSpec.DeclareParams | visitor.cpp:281-290 | each register parameter takes the next slot down, 8 bytes apiece; only the output, the offset and the scopes change, and the depth stays |
| CodeGenSpec.Prologue | visitor.cpp:264-279 | the function's label is the second line, and for a reservation that is not negative the fifth and last line subtracts `8 * (reserved + 10)` bytes from `%rsp` |
| CodeGenSpec.StartBuffering | visitor.cpp:155-161 | with optimizations on, the body goes to an emptied buffer; off, nothing changes; the output written so far stays |
| CodeGenSpec.FlushBuffer | visitor.cpp:163-190 | without buffering nothing happens; afterwards buffering is off, only the output and statistics changed, and the earlier output is kept in front; it fails only when the optimizer throws on non-empty buffered text |
| CodeGenSpec.EnterFunction | visitor.cpp:251-292 | entering a function sets the function context and return label, keeps tables and switches, and writes the prologue after the earlier output |
| CodeGenSpec.FinishFunction | visitor.cpp:296-308 | leaving a function flushes the buffer, keeps the earlier output in front, ends with `movq $0, %rax`, the return label, `leave`, `ret`, and clears the scopes and context |
| CodeGenSpec.GenFunDec | visitor.cpp:251-310 | a generated function keeps tables and switches, clears scopes and context, writes its prologue after the earlier output and ends with the epilogue at its return label |
| CodeGenSpec.GenFunDecs | visitor.cpp:242-246 | the functions in order keep tables and switches and only extend the output |
| CodeGenSpec.DataSection | visitor.cpp:213-227 | outside a function the data section writes exactly the header, one quad per global and `.text` |
| CodeGenSpec.TextSection | visitor.cpp:229-249 | the text section registers the program's aliases and layouts, extends the output and ends with the stack note |
| CodeGenSpec.GenProgram | visitor.cpp:212-249 | a generated program writes the data section, then more, and ends with the stack note |
| CodeGenSpec.Generate | visitor.cpp:205-210 | generation runs the planner first, so the frame table is the planned one, and writes the data section followed by code ending in the stack note |
| CodeGenSpec.DeclareVars | visitor.cpp:607-614 | each local variable declared takes one slot down, and only the offset and the scopes change, the depth staying |
| CodeGenSpec.GenVarDecs | visitor.cpp:313-317 | declarations only add globals, never raise the stack offset and keep the scope depth |
| CodeGen.GenCodeVisitor.constructor | visitor.cpp:44-45 | a new generator writes to the output stream with nothing written, the first slot at -8, label 0, no scopes, globals, cache, tables or statistics, and all optimizations on |
| CodeGen.GenCodeVisitor.Emit | visitor.cpp:861 | text goes to the peephole buffer while buffering and to the output stream otherwise |
| CodeGen.GenCodeVisitor.EmitTyped | visitor.cpp:863-864 | the lines are written and the type they leave in `%rax` recorded |
| CodeGen.GenCodeVisitor.EmitOut | visitor.cpp:187-189 | text written with `out` always reaches the output stream |
| CodeGen.GenCodeVisitor.MakeLabel | visitor.cpp:47-49 | the label is `.L_<base>_<n>` for the current counter and the counter moves up by one |
| CodeGen.GenCodeVisitor.MakeLabels | visitor.cpp:47-49 | two labels in a row get consecutive numbers |
| CodeGen.GenCodeVisitor.DeclareLocal | visitor.cpp:51-57 | the name gets the current offset in the innermost scope and the offset moves down 8 |
| CodeGen.GenCodeVisitor.ClearDagCache | visitor.cpp:145-149 | the cache and its hit and miss counters are emptied |
| CodeGen.GenCodeVisitor.InvalidateDagCache | visitor.cpp:128-142 | the cache loses exactly the entries whose signature reads the name |
| CodeGen.GenCodeVisitor.StorageSizeOf | visitor.cpp:353-364 | a variable's bytes: 4 per array element, the struct layout's size, 4 for 32-bit scalars, else 8 |
| CodeGen.GenCodeVisitor.VisitExp | visitor.cpp:617-1068 | generating an expression reaches exactly the state, or the error, the expression specification gives |
| CodeGen.GenCodeVisitor.VisitNumber | visitor.cpp:860-866 | an integer literal is loaded into `%rax` with type `i64` |
| CodeGen.GenCodeVisitor.VisitBool | visitor.cpp:868-873 | a boolean literal loads 1 or 0 |
| CodeGen.GenCodeVisitor.VisitFloat | visitor.cpp:1059-1068 | a float literal loads its bit pattern with its float type |
| CodeGen.GenCodeVisitor.VisitId | visitor.cpp:875-910 | an identifier is loaded by size and tag from its slot, or from its global label, or is an undeclared-identifier error |
| CodeGen.GenCodeVisitor.VisitBinary | visitor.cpp:617-858 | a binary expression dispatches to assignment, `&&`, the immediate form or the general form as the specification does |
| CodeGen.GenCodeVisitor.VisitImmediate | visitor.cpp:734-758 | `+ - *` with a literal right operand use one immediate instruction |
| CodeGen.GenCodeVisitor.VisitGeneral | visitor.cpp:760-857 | the left operand is pushed, the right evaluated and moved to `%rcx`, then combined |
| CodeGen.GenCodeVisitor.Combine | visitor.cpp:769-855 | float operands take the SSE path, others the integer path |
| CodeGen.GenCodeVisitor.CombineFloat | visitor.cpp:769-799 | two `f32` stay single precision, mixed operands are widened to double; only `+ - * /` are accepted |
| CodeGen.GenCodeVisitor.CombineInt | visitor.cpp:801-855 | each integer operator's instructions with result type `i64`; power and other operators are errors |
| CodeGen.GenCodeVisitor.VisitAnd | visitor.cpp:716-732 | short-circuit `&&` with a false label and an end label |
| CodeGen.GenCodeVisitor.VisitAssignExp | visitor.cpp:620-713 | assignment as an expression to a variable or array element, any other target an error |
| CodeGen.GenCodeVisitor.StoreVariable | visitor.cpp:621-676 | the value is stored into the local's slot or the global's label; an undeclared name is an error |
| CodeGen.GenCodeVisitor.VisitStoreElement | visitor.cpp:678-710 | an element store: the address, the value, then a 4- or 8-byte store |
| CodeGen.GenCodeVisitor.ElementAddress | visitor.cpp:679-699 | the element's address from a local array and the index; a non-local or non-identifier array is an error |
| CodeGen.GenCodeVisitor.VisitCall | visitor.cpp:912-945 | a call aligns the stack, passes arguments from last to first (six in registers), calls and releases the stack |
| CodeGen.GenCodeVisitor.VisitArg | visitor.cpp:924-937 | one argument evaluated and moved to its register or pushed, leaving the rest of the arguments to the specification |
| CodeGen.GenCodeVisitor.VisitIndex | visitor.cpp:971-992 | an array read loads the 4-byte element sign-extended |
| CodeGen.GenCodeVisitor.VisitField | visitor.cpp:994-1016 | a field read adds the field's offset and loads 8 or 4 bytes; anything else is a field-access error |
| CodeGen.GenCodeVisitor.FieldBaseOf | visitor.cpp:996-1002 | finds the local and layout the field access reads, as the specification does |
| CodeGen.GenCodeVisitor.VisitStructInit | visitor.cpp:1018-1052 | a struct literal of a known struct takes an aligned block below the stack offset; an unknown one writes nothing |
| CodeGen.GenCodeVisitor.VisitStructFields | visitor.cpp:1021-1049 | the block is reserved, the fields stored, and the value or address left in `%rax` |
| CodeGen.GenCodeVisitor.VisitInits | visitor.cpp:1030-1043 | the field initialisers in order, each stored 4 bytes for `i32`/`bool` and 8 otherwise |
| CodeGen.GenCodeVisitor.VisitInit | visitor.cpp:1031-1042 | one initialiser stored, leaving the rest to the specification |
| CodeGen.GenCodeVisitor.VisitStm | visitor.cpp:312-595 | generating a statement reaches exactly the state, or the error, the statement specification gives |
| CodeGen.GenCodeVisitor.VisitBlock | visitor.cpp:326-335 | a block runs its statements in a new scope and pops it |
| CodeGen.GenCodeVisitor.VisitStms | visitor.cpp:319-323 | the statements in order, stopping at the first error |
| CodeGen.GenCodeVisitor.VisitStmAt | visitor.cpp:319-323 | one statement of the list, leaving the rest to the specification |
| CodeGen.GenCodeVisitor.VisitOptExp | visitor.cpp:586-592 | an absent expression loads 0 |
| CodeGen.GenCodeVisitor.VisitPrint | visitor.cpp:525-549 | `println!` evaluates its argument and calls `printf` with the integer or float format |
| CodeGen.GenCodeVisitor.VisitReturn | visitor.cpp:585-595 | `return` evaluates its value and jumps to the function's return label |
| CodeGen.GenCodeVisitor.VisitLet | visitor.cpp:337-423 | a top-level `let` records a global; inside a function it takes a stack block |
| CodeGen.GenCodeVisitor.VisitLocalLet | visitor.cpp:346-423 | a local `let` declares the variable and stores its initialiser |
| CodeGen.GenCodeVisitor.DeclareLet | visitor.cpp:353-371 | the variable's size, its 8-aligned block and its symbol entry at the block's lowest address |
| CodeGen.GenCodeVisitor.ReserveBlock | visitor.cpp:366-368 | the stack offset moves down by the size rounded up to 8 |
| CodeGen.GenCodeVisitor.VisitLetInit | visitor.cpp:373-419 | the initialiser's value, then the store by tag and size |
| CodeGen.GenCodeVisitor.VisitLetValue | visitor.cpp:373-395 | a cached initialiser is reloaded from its slot, another is evaluated |
| CodeGen.GenCodeVisitor.ReloadCached | visitor.cpp:378-386 | a hit is counted and the remembered slot reloaded |
| CodeGen.GenCodeVisitor.EvaluateInit | visitor.cpp:387-395 | a miss is counted, evaluated and, for a binary initialiser, remembered |
| CodeGen.GenCodeVisitor.CountMiss | visitor.cpp:388 | the miss counter goes up by one and nothing else changes |
| CodeGen.GenCodeVisitor.LookupDagCache | visitor.cpp:106-114 | the cache entry for a signature, none when the cache is off |
| CodeGen.GenCodeVisitor.SaveToDagCache | visitor.cpp:117-125 | the signature is remembered with the slot and tag |
| CodeGen.GenCodeVisitor.VisitIf | visitor.cpp:425-451 | `if`: the condition, a jump to the else label, the then block, a jump to the end, the else block, with the cache cleared around each part |
| CodeGen.GenCodeVisitor.VisitElseThenEnd | visitor.cpp:443-450 | the else block and the end label |
| CodeGen.GenCodeVisitor.VisitElse | visitor.cpp:443-448 | the else block, if any |
| CodeGen.GenCodeVisitor.VisitWhile | visitor.cpp:453-475 | `while`: test at the top, body, jump back, with the cache cleared |
| CodeGen.GenCodeVisitor.VisitFor | visitor.cpp:477-523 | `for`: a scope with the counter's slot, the loop, then the scope popped and the cache cleared |
| CodeGen.GenCodeVisitor.EnterFor | visitor.cpp:480-487 | a new scope, a cleared cache and the counter's 8-byte slot |
| CodeGen.GenCodeVisitor.LeaveFor | visitor.cpp:520-521 | the scope popped and the cache cleared; popping with no scope is an error |
| CodeGen.GenCodeVisitor.VisitForLoop | visitor.cpp:488-519 | the start stored, the bound compared each round, the body, and the counter incremented |
| CodeGen.GenCodeVisitor.VisitGuarded | visitor.cpp:432-441 | a test that jumps past a block, the block, and the closing lines |
| CodeGen.GenCodeVisitor.VisitAssign | visitor.cpp:551-583 | `x = e;`: `_` only evaluates, otherwise the readers of `x` leave the cache and the value is stored |
| CodeGen.GenCodeVisitor.StoreAssignedVar | visitor.cpp:566-582 | the store into the local or global; an unknown name is an error |
| CodeGen.GenCodeVisitor.VisitVarDec | visitor.cpp:597-615 | `var` records globals at the top level and declares locals inside a function |
| CodeGen.GenCodeVisitor.RecordGlobals | visitor.cpp:598-605 | the global table gains exactly the declared names |
| CodeGen.GenCodeVisitor.VisitVarDecs | visitor.cpp:312-318 | the declarations in order |
| CodeGen.GenCodeVisitor.VisitBody | visitor.cpp:312-324 | the declarations, then the statements |
| CodeGen.GenCodeVisitor.VisitFunDec | visitor.cpp:251-310 | a function: fresh frame, prologue, parameters, buffered body, flushed optimized text and epilogue |
| CodeGen.GenCodeVisitor.BeginFunction | visitor.cpp:252-298 | entering a function resets scopes, frame and cache, writes the prologue, declares the parameters and starts buffering |
| CodeGen.GenCodeVisitor.FinishFunction | visitor.cpp:299-309 | the optimized body is flushed and the epilogue written |
| CodeGen.GenCodeVisitor.ResetFrame | visitor.cpp:252-266 | inside the function, one empty scope, the first slot at -8 and an empty cache |
| CodeGen.GenCodeVisitor.NameFunction | visitor.cpp:253-254 | the current function and its return label `.L_return_<name>` |
| CodeGen.GenCodeVisitor.ResetScopes | visitor.cpp:256-257 | exactly one empty scope remains |
| CodeGen.GenCodeVisitor.EmitPrologue | visitor.cpp:268-279 | the label and frame set-up, reserving 8 bytes for each planned slot plus ten extra slots |
| CodeGen.GenCodeVisitor.DeclareParams | visitor.cpp:281-290 | each register parameter gets a slot and is stored from its register |
| CodeGen.GenCodeVisitor.DeclareParam | visitor.cpp:282-289 | one parameter declared and stored, leaving the rest to the specification |
| CodeGen.GenCodeVisitor.StartBuffering | visitor.cpp:155-161 | with optimizations on, an empty buffer becomes the target |
| CodeGen.GenCodeVisitor.FlushOptimizedBuffer | visitor.cpp:163-190 | when buffering, the buffer's non-empty lines are optimized with fresh statistics and written out; otherwise nothing happens |
| CodeGen.GenCodeVisitor.VisitFunDecs | visitor.cpp:241-245 | the functions in order, stopping at the first error |
| CodeGen.GenCodeVisitor.VisitFunDecAt | visitor.cpp:241-245 | one function, leaving the rest to the specification |
| CodeGen.GenCodeVisitor.VisitTypeAliases | visitor.cpp:229-233 | the aliases are recorded in order, later ones overriding, layouts untouched |
| CodeGen.GenCodeVisitor.VisitStructDecs | visitor.cpp:235-239 | each struct's emitter layout is recorded in order |
| CodeGen.GenCodeVisitor.VisitStructDec | visitor.cpp:947-969 | a struct's fields get consecutive offsets with the emitter's field sizes, and its layout replaces any earlier one |
| CodeGen.GenCodeVisitor.EmitterFieldSize | visitor.cpp:954-962 | 4 bytes per array element, 4 for 32-bit scalars and `bool`, else 8 |
| CodeGen.GenCodeVisitor.EmitGlobals | visitor.cpp:217-225 | one `.quad 0` line per global, each global once |
| CodeGen.GenCodeVisitor.VisitProgram | visitor.cpp:212-249 | the data section, the text section, aliases, structs and functions, as the program specification gives |
| CodeGen.GenCodeVisitor.VisitTextSection | visitor.cpp:227-247 | the text section with the functions and the stack note |
| CodeGen.GenCodeVisitor.RegisterTables | visitor.cpp:229-239 | aliases then struct layouts registered |
| CodeGen.GenCodeVisitor.VisitDataSection | visitor.cpp:213-225 | the data header with the print formats and the globals |
| CodeGen.GenCodeVisitor.Generate | visitor.cpp:205-210 | the planner runs first, then the program is generated |
| CodeGen.GenCodeVisitor.Plan | visitor.cpp:205-208 | planning sets only the tables: aliases, layouts and frame reservations |
| CodeGen.ReadLines | visitor.cpp:175-182 | the buffered text read back as its non-empty lines |
| CodeGen.GenCodeVisitor.VisitLetBody | visitor.cpp:370-419 | the zeroing store or the initialiser and its store change the generator's state exactly as `LetBody` says |
| CodeGenProperties.CombineRefuses | visitor.cpp:769-855 | combining evaluated operands fails exactly for `**` on integers and for any non-arithmetic operator on floats, with the matching message |
| CodeGenProperties.PowerUnsupported | visitor.cpp:851-852 | `a ** b` never produces code |
| CodeGenProperties.FloatComparisonUnsupported | visitor.cpp:769-799 | a comparison with a float left operand is always refused |
| CodeGenProperties.BadAssignTarget | visitor.cpp:678-713 | an assignment to anything but a name or an element of a named array is refused |
| CodeGenProperties.ControlFlowClearsCache | visitor.cpp:425-523 | after an `if`, `while` or `for` the cache is empty and both counters are zero |
| CodeGenProperties.IfClearsCache | visitor.cpp:425-451 | after an `if` the cache is empty |
| CodeGenProperties.ControlFlowIgnoresCache | visitor.cpp:425-523 | the code generated for an `if`, `while` or `for` does not depend on what was cached before it |
| CodeGenProperties.IfIgnoresCache | visitor.cpp:425-432 | an `if` does not depend on the earlier cache |
| CodeGenProperties.WhileIgnoresCache | visitor.cpp:453-460 | a `while` does not depend on the earlier cache |
| CodeGenProperties.ForIgnoresCache | visitor.cpp:477-481 | a `for` does not depend on the earlier cache |
| CodeGenProperties.AssignForgetsReaders | visitor.cpp:566-568 | after `x = e;` no cacheable expression reading `x` is found in the cache |
| CodeGenProperties.LetRemembersInitialiser | visitor.cpp:387-395 | a `let` with an uncached binary initialiser records the variable's slot and type under its signature |
| CodeGenProperties.LetReusesCachedSlot | visitor.cpp:378-386 | a `let` with a cached initialiser reloads the recorded slot and stores it, counts a hit, and moves nothing on the stack |
| CodeGenProperties.DeclareLocalSlot | visitor.cpp:51-57 | a declared local gets the current slot, the offset moves down 8, and other names keep their bindings |
| CodeGenProperties.LetTakesAlignedBlock | visitor.cpp:353-371 | a local `let` takes the block just below the previous one, a multiple of 8 holding the variable's bytes with less than 8 spare |
| CodeGenProperties.LocalLetMovesDown | visitor.cpp:366-368 | a local `let` moves the offset down by its type's size rounded up to 8 |
| CodeGenProperties.DeclareParamsFrame | visitor.cpp:281-290 | register parameters take consecutive slots downwards; cache and function stay |
| CodeGenProperties.ParamScopesFind | visitor.cpp:281-290 | register parameter `i` is found `8*i` bytes below the first slot with its declared type, unless a later parameter reuses its name |
| CodeGenProperties.ParamScopesKeep | visitor.cpp:281-290 | a name no parameter declares keeps its binding |
| CodeGenProperties.ParamScopesDepth | visitor.cpp:281-290 | parameters go into the innermost scope; the depth stays |
| CodeGenProperties.FunctionEntry | visitor.cpp:252-290 | on entry to a function: empty cache, one scope, its name and return label, the register parameters at -8, -16, … with their types, and the offset below them |
| CodeGenProperties.FramesAfterLookup | visitor.cpp:1091-1103 | after planning, a function's reservation is its own slot count unless a later function has the same name |
| CodeGenProperties.FramesAfterKeeps | visitor.cpp:1091-1103 | a reservation of a name no function has is kept |
| CodeGenProperties.PlannedFrame | visitor.cpp:268-279 | a planned function's prologue reserves one slot per parameter, the body's planned slots and ten spare slots |
| CodeGenProperties.StackAdjustAligned | visitor.cpp:912-943 | pushed arguments plus padding are a multiple of 16 bytes, the padding is 8 exactly when an odd number is pushed, and at most six arguments push nothing |
| CodeGenProperties.LabelsDistinct | visitor.cpp:47-49 | labels taken at different counter values differ |
| CodeGenProperties.FlushFeedsBufferedLines | visitor.cpp:163-190 | flushing writes the buffered lines after the earlier output: as they are when optimizations are off or nothing was buffered, otherwise the optimizer's output with its statistics, failing only when the optimizer fails |
| CodeGenProperties.TopLevelVarDecs | visitor.cpp:597-605 | top-level `var` declarations write nothing and add exactly their names to the globals |
| CodeGenProperties.GlobalLinesShape | visitor.cpp:221-223 | one `<name>: .quad 0` line per global, in order |
| CodeGenProperties.DataSectionLines | visitor.cpp:213-227 | the data section is the header, one quad per global and `.text`, and nothing else |
| CodeGenProperties.GlobalsListed | visitor.cpp:217-223 | the globals listed are the earlier ones plus every name a top-level `var` declares |
| CodeGenProperties.ReloadSeparable | visitor.cpp:378-385 | the lines of a cache hit, the reuse comment and the reload from a `%rbp` slot, are lines value numbering never mistakes for a label |
| CodeGenProperties.ReloadPair | visitor.cpp:380-385 | the reuse comment followed by a reload line without `:` in its operands is such a pair |
| CodeGenProperties.CommentUnread | visitor.cpp:381 | the reuse comment's first word is `#`, so value numbering reads no operand from it |
| CodeGenProperties.SlotLineAvoids | visitor.cpp:382-385 | a move between a `%rbp` slot and a register has no `:` in its operands |
| CodeGenProperties.SuccessiveLetsDisjoint | visitor.cpp:364-368 | two successive local `let`s of positive size take non-empty blocks, the second wholly below the first |
| CodeGenProperties.LetRecordsOnlyBinary | visitor.cpp:392-394 | a `let` whose initialiser is not a binary expression, or has an empty signature, adds no cache entry |
| CodeGenProperties.ZeroSizeLetOverwrites | visitor.cpp:364-419 | after an 8-byte local, a local of size 0 without initialiser gets the same slot and its zeroing store writes over the earlier variable |
| CodeGenProperties.ZeroSizeLet | visitor.cpp:364-419 | a local of size 0 without initialiser leaves the offset where it is and zeroes the slot just above it |
| CodeGenProperties.EmptyArraySize | visitor.cpp:355-360 | `i32[0]`, not being an alias, has size 0 |
| CodeGenProperties.OneSlot | visitor.cpp:364 | a value of 1 to 8 bytes takes exactly one 8-byte slot |
| CodeGenProperties.ReservedBytes | visitor.cpp:364 | the corrected reservation is a multiple of 8, at least one slot, holds the value, and for a positive size has less than 8 bytes to spare |
| CodeGenProperties.ReservedLetsDisjoint | visitor.cpp:364-419 | under the corrected reservation each local's zeroing store lies inside its own block and the next local's block lies wholly below it, whatever the sizes |
| Scanning.SkipWhite | scanner.cpp:19-36 | the scan resumes at the first character after the position that is not a space, newline, return or tab, or at the end |
| Scanning.DigitsEnd | scanner.cpp:44-48 | the end of a maximal run of digits |
| Scanning.WordEnd | scanner.cpp:55 | the end of a maximal run of letters, digits and underscores |
| Scanning.StringEnd | scanner.cpp:99-102 | the first quote, NUL or newline at or after the position, with none of them before it |
| Scanning.Keyword | scanner.cpp:63-92 | only the reserved words lex to keyword kinds |
| Scanning.TwoCharOp | scanner.cpp:114-127 | the two-character operators are symbol kinds |
| Scanning.SingleCharOp | scanner.cpp:131-150 | the one-character symbols are symbol kinds |
| Scanning.LexNumber | scanner.cpp:43-51 | a number token is the text from its first digit to where the scan stops, and is not empty |
| Scanning.LexWord | scanner.cpp:54-94 | a word is `println`, a keyword or an identifier, its text the characters scanned |
| Scanning.LexString | scanner.cpp:97-109 | a string literal spans its quotes; an unterminated one is an ERR token carrying the quote |
| Scanning.LexSymbol | scanner.cpp:114-152 | a symbol token's text is the characters consumed; an unknown character is an ERR token holding it, one character consumed |
| Scanning.Lex | scanner.cpp:28-153 | `nextToken` never moves back, gives END exactly at the end of the input, and consumes at least one character otherwise |
| Scanning.LexWellFormed | scanner.cpp:28-153 | every token starts after white space only and its text is what it consumed (its character for ERR) |
| Scanning.LexAll | scanner.cpp:186-208 | the tokens read until END or ERR: that one is last and no earlier token is END or ERR |
| Scanning.TokenRunCons | scanner.cpp:186-208 | a non-final token before a run still makes a run |
| Scanning.Scanner.constructor | scanner.cpp:12-13 | a new scanner holds the input with both cursors at 0 |
| Scanning.Scanner.ScanNumber | scanner.cpp:43-51 | the number loop returns the token and end position of the number function |
| Scanning.Scanner.ScanDigits | scanner.cpp:48 | the fraction loop stops at the end of the digit run |
| Scanning.Scanner.ScanWord | scanner.cpp:54-94 | the word loop returns the token and end position of the word function |
| Scanning.Scanner.ScanString | scanner.cpp:97-109 | the string loop returns the token and end position of the string function |
| Scanning.Scanner.ScanSymbol | scanner.cpp:114-152 | the symbol branch returns the token and end position of the symbol function |
| Scanning.Scanner.NextToken | scanner.cpp:28-153 | `nextToken` returns the token the lexer function gives for the current position and leaves the cursor where it says; `first` marks the token's start |
| Scanning.NumeralOfLexNumber | scanner.cpp:43-51 | a number's text is digits, optionally a dot and more digits, and the next character is no digit; a dot is left alone unless a digit follows it |
| Scanning.NumberFromDigits | scanner.cpp:43-51 | only the number branch gives NUMBER |
| Scanning.NumberIsNumeral | scanner.cpp:43-51 | every NUMBER token is a maximal numeral |
| Scanning.IdentifierFromWord | scanner.cpp:54-93 | only the word branch gives IDENTIFIER |
| Scanning.IdentifierShape | scanner.cpp:54-93 | an IDENTIFIER is a maximal `[A-Za-z_][A-Za-z0-9_]*` word that is neither a reserved word nor `println` |
| Scanning.WordShape | scanner.cpp:54-93 | the word branch's identifiers have that shape |
| Scanning.StringShape | scanner.cpp:97-109 | a STRING token runs from a quote to the next quote on the same line with no quote, newline or NUL inside; ERR means a newline, NUL or the end came first |
| Scanning.LexesSymbol | scanner.cpp:111-152 | a character that starts no number, word or string goes to the symbol rules |
| Scanning.TwoCharOpStart | scanner.cpp:114-127 | every two-character operator starts with one of `.-+=!<>\|&*` |
| Scanning.TwoCharFirst | scanner.cpp:114-127 | two-character operators win over their one-character prefixes |
| Scanning.UnknownCharacter | scanner.cpp:151 | a character no rule accepts gives ERR carrying it and consumes one character |
| Scanning.PrintlnMacro | scanner.cpp:58-59 | `println!` is one PRINTLN token of 8 characters |
| Scanning.RangeLexes | scanner.cpp:43-117 | `0..5` lexes to NUMBER, DOTDOT, NUMBER, END |
| Scanning.RangeStart | scanner.cpp:46 | the number before `..` stops at the first dot |
| Scanning.RangeDots | scanner.cpp:114-117 | `..` is one token |
| Scanning.RangeEnd | scanner.cpp:37-51 | the last number and then END |
| Scanning.Tokenize | scanner.cpp:186-208 | the token stream ends with its only END or ERR token, and an empty input gives END alone |
| ParserSpec.Advance | parser.cpp:20-27 | advancing moves exactly one token on, and fails exactly when it lands on an ERR token |
| ParserSpec.Match | parser.cpp:29-32 | `match` moves one token on exactly when the current token has the kind asked for and the input has not ended, and otherwise stays |
| ParserSpec.Consume | parser.cpp:36-38 | `consume` moves past a token of the kind asked for, and fails with the expected-token message when the current token is not of that kind |
| ParserSpec.ParseBaseType | parser.cpp:78 | a type is one identifier or primitive-type token, kept as its text |
| ParserSpec.ParseTypeName | parser.cpp:200-209 | a type name starts with a type token and may carry an array size |
| ParserSpec.ArraySize | parser.cpp:203-208 | with no `[`, the type text is unchanged and nothing is consumed; with `[N]`, the text becomes `T[N]` |
| ParserSpec.ParseExpression | parser.cpp:284 | an expression consumes at least one token and stops only where no assignment operator follows |
| ParserSpec.ParseAssignment | parser.cpp:286-313 | an assignment level parse stops only where no assignment operator follows |
| ParserSpec.AssignTail | parser.cpp:288-312 | after the left operand, an assignment operator takes a right side parsed at the assignment level |
| ParserSpec.AssignNode | parser.cpp:288-311 | `=` builds an assignment node; `+=`/`-=` succeed exactly when the left side is an identifier and assign `x + e` / `x - e` to it |
| ParserSpec.ParseOr | parser.cpp:315-319 | a `\|\|` chain stops only where no `\|\|` follows |
| ParserSpec.OrRest | parser.cpp:317 | the `\|\|` loop runs until no `\|\|` follows |
| ParserSpec.OrStep | parser.cpp:317 | one `\|\| rhs` turn consumes the operator and the right operand and builds the `&&` node |
| ParserSpec.ParseAnd | parser.cpp:321-325 | a `&&` chain stops only where no `&&` follows |
| ParserSpec.AndRest | parser.cpp:323 | the `&&` loop runs until no `&&` follows |
| ParserSpec.AndStep | parser.cpp:323 | one `&& rhs` turn consumes the operator and the right operand |
| ParserSpec.ParseRel | parser.cpp:327-344 | a comparison chain stops only where no comparison operator follows |
| ParserSpec.RelRest | parser.cpp:329-342 | the comparison loop runs until no comparison operator follows |
| ParserSpec.RelStep | parser.cpp:330-341 | one comparison turn consumes the operator and the right operand |
| ParserSpec.ParseAdd | parser.cpp:346-354 | a sum stops only where no `+` or `-` follows |
| ParserSpec.AddRest | parser.cpp:348-352 | the `+`/`-` loop runs until neither follows |
| ParserSpec.AddStep | parser.cpp:349-351 | one `+`/`-` turn consumes the operator and the right operand |
| ParserSpec.ParseMul | parser.cpp:356-364 | a product stops only where no `*` or `/` follows |
| ParserSpec.MulRest | parser.cpp:358-362 | the `*`/`/` loop runs until neither follows |
| ParserSpec.MulStep | parser.cpp:359-361 | one `*`/`/` turn consumes the operator and the right operand |
| ParserSpec.ParseUnary | parser.cpp:366-369 | prefix `!`, `-`, `+` are consumed; the operand parse stops where no postfix continues |
| ParserSpec.ParsePostfix | parser.cpp:371-451 | a postfix chain stops only where no `.`, `[`, `(` follows and no `{` follows an identifier |
| ParserSpec.PostfixRest | parser.cpp:373-449 | the postfix loop runs until nothing continues it |
| ParserSpec.PostfixStep | parser.cpp:374-447 | one postfix turn consumes at least one token |
| ParserSpec.FieldSuffix | parser.cpp:374-378 | `.name` consumes two tokens and builds a field access on the expression so far |
| ParserSpec.IndexSuffix | parser.cpp:379-384 | `[index]` builds an array access on the expression so far |
| ParserSpec.CallSuffix | parser.cpp:385-422 | a call succeeds only on an identifier and is named after it |
| ParserSpec.CallArgs | parser.cpp:413-418 | a call has no arguments exactly when `)` follows the `(`, else at least one |
| ParserSpec.StructInitSuffix | parser.cpp:423-445 | `Name { ... }` builds a struct literal of that name |
| ParserSpec.InitList | parser.cpp:433-441 | a struct literal has no fields exactly when `}` follows the `{`, else at least one |
| ParserSpec.ParseArgs | parser.cpp:414-417 | a non-empty argument list yields at least one argument |
| ParserSpec.ArgsRest | parser.cpp:415-417 | the comma loop only adds arguments |
| ParserSpec.CommaExpression | parser.cpp:415-416 | `, expr` consumes the comma and an expression |
| ParserSpec.InitItem | parser.cpp:434-440 | each `name: expr` adds one initialiser |
| ParserSpec.InitsRest | parser.cpp:440 | with no comma the initialisers so far are the result and nothing is consumed |
| ParserSpec.Literal | parser.cpp:454-466 | a number with a dot becomes a double literal, one without an integer literal, `true`/`false` 1/0, an identifier an identifier node |
| ParserSpec.ParsePrimary | parser.cpp:453-469 | a primary consumes at least one token; anything else is an unexpected-primary error |
| ParserSpec.LiteralPrimary | parser.cpp:454-466 | a single-token primary consumes one token and is its literal |
| ParserSpec.ParenExpression | parser.cpp:467 | a parenthesised expression ends at `)` |
| ParserSpec.ParseBlock | parser.cpp:162-171 | a block spans from `{` to the matching `}` |
| ParserSpec.BlockBody | parser.cpp:165-169 | the statements of a block end at a `}` |
| ParserSpec.BlockItems | parser.cpp:165-168 | the statement loop never moves back |
| ParserSpec.ParseStatement | parser.cpp:173-191 | a statement, chosen by its first token, consumes at least one token |
| ParserSpec.ExpressionStatement | parser.cpp:182-190 | an expression statement consumes at least one token |
| ParserSpec.StatementEnd | parser.cpp:183-190 | an expression followed by `;` is an assignment to `_`, before `}` an implicit return; anything else is an error |
| ParserSpec.ParseVarDecl | parser.cpp:193-217 | `let` builds a let statement |
| ParserSpec.LetName | parser.cpp:195-198 | the let keeps its `mut` flag and its name |
| ParserSpec.LetTail | parser.cpp:199-216 | the type and initialiser keep the flag and name |
| ParserSpec.LetEnd | parser.cpp:210-216 | the let keeps its flag, name and type text |
| ParserSpec.ParseInit | parser.cpp:211-214 | there is an initialiser exactly when `=` follows |
| ParserSpec.ParseCondition | parser.cpp:221-226 | a condition, with or without parentheses, consumes at least one token |
| ParserSpec.ParseIf | parser.cpp:219-231 | `if` builds an if statement |
| ParserSpec.IfBranches | parser.cpp:227-230 | the if statement keeps its condition |
| ParserSpec.ElseBranch | parser.cpp:228-229 | there is an else block exactly when `else` follows |
| ParserSpec.ParseWhile | parser.cpp:233-241 | `while` builds a while statement |
| ParserSpec.ParseFor | parser.cpp:243-253 | `for` builds a for statement |
| ParserSpec.ForRange | parser.cpp:246-250 | the for statement keeps its iterator name |
| ParserSpec.ForBody | parser.cpp:250-252 | the for statement keeps its iterator and start |
| ParserSpec.ParseReturn | parser.cpp:255-262 | `return` builds a return statement |
| ParserSpec.ReturnValue | parser.cpp:259 | the value is absent exactly when `;` follows |
| ParserSpec.ParsePrint | parser.cpp:264-279 | `println!` builds a print statement |
| ParserSpec.PrintTail | parser.cpp:268-278 | the format and arguments build a print statement |
| ParserSpec.PrintEnd | parser.cpp:276-278 | `)` and `;` close the print of the first argument |
| ParserSpec.PrintArgs | parser.cpp:270-275 | there is a printed expression exactly when a comma follows the format |
| ParserSpec.SkipExpressions | parser.cpp:274 | the extra arguments are parsed and dropped, never moving back |
| ParserSpec.ParseParams | parser.cpp:72-91 | names and types of the parameters come in pairs |
| ParserSpec.ParamsRest | parser.cpp:81-89 | the loop keeps names and types paired and stops at the first non-comma |
| ParserSpec.ParamStep | parser.cpp:82-88 | each `, name: Type` adds one pair |
| ParserSpec.ParseFunction | parser.cpp:64-111 | a function's body is a body holding exactly its block and no declarations, with paired parameter names and types |
| ParserSpec.FunctionTail | parser.cpp:92-110 | the function keeps its name and parameters |
| ParserSpec.ParseReturnType | parser.cpp:94-99 | the return type parse never moves back, and is `void` without `->` |
| ParserSpec.ParseStruct | parser.cpp:113-141 | a struct declaration consumes at least one token |
| ParserSpec.StructFields | parser.cpp:120-138 | the field loop stops at the first non-identifier and only adds fields |
| ParserSpec.FieldDecl | parser.cpp:121-137 | each `name: Type;` adds one field |
| ParserSpec.ParseTypeAlias | parser.cpp:143-160 | a type alias consumes at least one token |
| ParserSpec.AliasBody | parser.cpp:147-159 | the alias keeps its name |
| ParserSpec.ParseItems | parser.cpp:48-62 | items are read until the next token starts none of `fn`, `struct`, `type`; global declarations stay untouched |
| ParserSpec.ItemStep | parser.cpp:49-61 | one item then the rest, with the same stopping condition |
| ParserSpec.ParseItem | parser.cpp:51-56 | one item is appended to the list of its kind |
| ParserSpec.ParseTokens | parser.cpp:11-13 | a parse succeeds only when the first token is not ERR |
| ParserSpec.ParseProgram | parser.cpp:40-46 | a parsed program has no global declaration list, since `parseItems` never fills it, and a stream holding only END parses to the empty program |
| ParserProperties.UnaryIsProduct | parser.cpp:356-364 | an operand not followed by `*` or `/` is the whole product |
| ParserProperties.ProductIsSum | parser.cpp:346-354 | a product not followed by `+` or `-` is the whole sum |
| ParserProperties.SumIsRelation | parser.cpp:327-344 | a sum not followed by a comparison is the whole relation |
| ParserProperties.RelationIsConjunction | parser.cpp:321-325 | a relation not followed by `&&` is the whole conjunction |
| ParserProperties.ConjunctionIsDisjunction | parser.cpp:315-319 | a conjunction not followed by `\|\|` is the whole disjunction |
| ParserProperties.DisjunctionIsExpression | parser.cpp:284-313 | a disjunction not followed by an assignment operator is the whole expression |
| ParserProperties.RelationIsExpression | parser.cpp:284-344 | a relation followed by no higher-level operator is the whole expression |
| ParserProperties.SumIsExpression | parser.cpp:284-354 | a sum followed by no higher-level operator is the whole expression |
| ParserProperties.OperandIsExpression | parser.cpp:284-369 | an operand followed by a token no level continues with is the whole expression |
| ParserProperties.PowerEndsExpression | parser.cpp:284-369 | no precedence level consumes `**`: the expression ends in front of it |
| ParserProperties.PowerStartsNothing | parser.cpp:453-469 | an expression cannot start with `**` |
| ParserProperties.SubtractionAssociatesLeft | parser.cpp:346-354 | `a - b - c` parses as `(a - b) - c` |
| ParserProperties.AddFrom | parser.cpp:347-348 | the additive level is its first operand followed by the loop |
| ParserProperties.AddRestDone | parser.cpp:348 | the additive loop stops in front of anything but `+` and `-` |
| ParserProperties.AddRestStep | parser.cpp:348-352 | one `+`/`-` turn folds the next operand into the left operand |
| ParserProperties.ProductOfTwo | parser.cpp:356-364 | `a * b` and `a / b` build one multiplicative node |
| ParserProperties.SumOfTwo | parser.cpp:346-354 | `a + b` and `a - b` build one additive node |
| ParserProperties.ConjunctionOfTwo | parser.cpp:321-325 | `a && b` builds one AND node |
| ParserProperties.DisjunctionOfTwo | parser.cpp:315-319 | `a \|\| b` also builds an AND node |
| ParserProperties.AssignmentAssociatesRight | parser.cpp:286-291 | `x = e` has a disjunction on the left and a whole assignment on the right, so `a = b = c` is `a = (b = c)` |
| ParserProperties.CompoundAssignmentDesugars | parser.cpp:292-311 | `x += e` is `x = x + e` and `x -= e` is `x = x - e`; any other left side is an error |
| ParserProperties.PrefixOperatorDropped | parser.cpp:366-367 | one prefix `!`, `-` or `+` is skipped |
| ParserProperties.PrefixOperatorsDropped | parser.cpp:366-367 | any run of prefix operators leaves no node: the result is the operand's |
| ParserProperties.BraceAfterNonIdentifier | parser.cpp:423-448 | after anything but an identifier, `{` ends the postfix chain |
| ParserProperties.BraceAfterIdentifier | parser.cpp:423-445 | after an identifier, `{` starts a struct literal named by it and the postfix loop goes on after it |
| ParserProperties.ProgramUsesAllTokens | parser.cpp:40-46 | a program parses exactly when its items parse and reach the end of the input |
| Parsing.Parser.constructor | parser.cpp:11-13 | a new parser stands on the first token of the scanner's output, which is not ERR |
| Parsing.Parser.Advance | parser.cpp:20-27 | the method returns exactly the result of the function `ParserSpec.Advance`, error message included, and on success the parser stands where that function stops |
| Parsing.Parser.Match | parser.cpp:29-32 | the method returns exactly the result of the function `ParserSpec.Match`, error message included, and on success the parser stands where that function stops |
| Parsing.Parser.Consume | parser.cpp:36-38 | the method returns exactly the result of the function `ParserSpec.Consume`, error message included, and on success the parser stands where that function stops |
| Parsing.Parser.ParseBaseType | parser.cpp:78 | the method returns exactly the result of the function `ParserSpec.ParseBaseType`, error message included, and on success the parser stands where that function stops |
| Parsing.Parser.ParseTypeName | parser.cpp:200-209 | the method returns exactly the result of the function `ParserSpec.ParseTypeName`, error message included, and on success the parser stands where that function stops |
| Parsing.Parser.ArraySize | parser.cpp:203-208 | the method returns exactly the result of the function `ParserSpec.ArraySize`, error message included, and on success the parser stands where that function stops |
| Parsing.Parser.ParseExpression | parser.cpp:284 | the method returns exactly the result of the function `ParserSpec.ParseExpression`, error message included, and on success the parser stands where that function stops |
| Parsing.Parser.ParseAssignment | parser.cpp:286-313 | the method returns exactly the result of the function `ParserSpec.ParseAssignment`, error message included, and on success the parser stands where that function stops |
| Parsing.Parser.AssignTail | parser.cpp:288-312 | the method returns exactly the result of the function `ParserSpec.AssignTail`, error message included, and on success the parser stands where that function stops |
| Parsing.Parser.ParseOr | parser.cpp:315-319 | the method returns exactly the result of the function `ParserSpec.ParseOr`, error message included, and on success the parser stands where that function stops |
| Parsing.Parser.OrStep | parser.cpp:317 | the method returns exactly the result of the function `ParserSpec.OrStep`, error message included, and on success the parser stands where that function stops |
| Parsing.Parser.ParseAnd | parser.cpp:321-325 | the method returns exactly the result of the function `ParserSpec.ParseAnd`, error message included, and on success the parser stands where that function stops |
| Parsing.Parser.AndStep | parser.cpp:323 | the method returns exactly the result of the function `ParserSpec.AndStep`, error message included, and on success the parser stands where that function stops |
| Parsing.Parser.ParseRel | parser.cpp:327-344 | the method returns exactly the result of the function `ParserSpec.ParseRel`, error message included, and on success the parser stands where that function stops |
| Parsing.Parser.RelStep | parser.cpp:330-341 | the method returns exactly the result of the function `ParserSpec.RelStep`, error message included, and on success the parser stands where that function stops |
| Parsing.Parser.ParseAdd | parser.cpp:346-354 | the method returns exactly the result of the function `ParserSpec.ParseAdd`, error message included, and on success the parser stands where that function stops |
| Parsing.Parser.AddStep | parser.cpp:349-351 | the method returns exactly the result of the function `ParserSpec.AddStep`, error message included, and on success the parser stands where that function stops |
| Parsing.Parser.ParseMul | parser.cpp:356-364 | the method returns exactly the result of the function `ParserSpec.ParseMul`, error message included, and on success the parser stands where that function stops |
| Parsing.Parser.MulStep | parser.cpp:359-361 | the method returns exactly the result of the function `ParserSpec.MulStep`, error message included, and on success the parser stands where that function stops |
| Parsing.Parser.ParseUnary | parser.cpp:366-369 | the method returns exactly the result of the function `ParserSpec.ParseUnary`, error message included, and on success the parser stands where that function stops |
| Parsing.Parser.ParsePostfix | parser.cpp:371-451 | the method returns exactly the result of the function `ParserSpec.ParsePostfix`, error message included, and on success the parser stands where that function stops |
| Parsing.Parser.PostfixStep | parser.cpp:374-447 | the method returns exactly the result of the function `ParserSpec.PostfixStep`, error message included, and on success the parser stands where that function stops |
| Parsing.Parser.FieldSuffix | parser.cpp:374-378 | the method returns exactly the result of the function `ParserSpec.FieldSuffix`, error message included, and on success the parser stands where that function stops |
| Parsing.Parser.IndexSuffix | parser.cpp:379-384 | the method returns exactly the result of the function `ParserSpec.IndexSuffix`, error message included, and on success the parser stands where that function stops |
| Parsing.Parser.CallSuffix | parser.cpp:385-422 | the method returns exactly the result of the function `ParserSpec.CallSuffix`, error message included, and on success the parser stands where that function stops |
| Parsing.Parser.CallArgs | parser.cpp:413-418 | the method returns exactly the result of the function `ParserSpec.CallArgs`, error message included, and on success the parser stands where that function stops |
| Parsing.Parser.StructInitSuffix | parser.cpp:423-445 | the method returns exactly the result of the function `ParserSpec.StructInitSuffix`, error message included, and on success the parser stands where that function stops |
| Parsing.Parser.ParseArgs | parser.cpp:414-417 | the method returns exactly the result of the function `ParserSpec.ParseArgs`, error message included, and on success the parser stands where that function stops |
| Parsing.Parser.CommaExpression | parser.cpp:415-416 | the method returns exactly the result of the function `ParserSpec.CommaExpression`, error message included, and on success the parser stands where that function stops |
| Parsing.Parser.InitList | parser.cpp:433-441 | the method returns exactly the result of the function `ParserSpec.InitList`, error message included, and on success the parser stands where that function stops |
| Parsing.Parser.InitItem | parser.cpp:434-440 | the method returns exactly the result of the function `ParserSpec.InitItem`, error message included, and on success the parser stands where that function stops |
| Parsing.Parser.ParsePrimary | parser.cpp:453-469 | the method returns exactly the result of the function `ParserSpec.ParsePrimary`, error message included, and on success the parser stands where that function stops |
| Parsing.Parser.LiteralPrimary | parser.cpp:454-466 | the method returns exactly the result of the function `ParserSpec.LiteralPrimary`, error message included, and on success the parser stands where that function stops |
| Parsing.Parser.ParenExpression | parser.cpp:467 | the method returns exactly the result of the function `ParserSpec.ParenExpression`, error message included, and on success the parser stands where that function stops |
| Parsing.Parser.ParseBlock | parser.cpp:162-171 | the method returns exactly the result of the function `ParserSpec.ParseBlock`, error message included, and on success the parser stands where that function stops |
| Parsing.Parser.BlockBody | parser.cpp:165-169 | the method returns exactly the result of the function `ParserSpec.BlockBody`, error message included, and on success the parser stands where that function stops |
| Parsing.Parser.BlockItems | parser.cpp:165-168 | the method returns exactly the result of the function `ParserSpec.BlockItems`, error message included, and on success the parser stands where that function stops |
| Parsing.Parser.ParseStatement | parser.cpp:173-191 | the method returns exactly the result of the function `ParserSpec.ParseStatement`, error message included, and on success the parser stands where that function stops |
| Parsing.Parser.ExpressionStatement | parser.cpp:182-190 | the method returns exactly the result of the function `ParserSpec.ExpressionStatement`, error message included, and on success the parser stands where that function stops |
| Parsing.Parser.StatementEnd | parser.cpp:183-190 | the method returns exactly the result of the function `ParserSpec.StatementEnd`, error message included, and on success the parser stands where that function stops |
| Parsing.Parser.ParseVarDecl | parser.cpp:193-217 | the method returns exactly the result of the function `ParserSpec.ParseVarDecl`, error message included, and on success the parser stands where that function stops |
| Parsing.Parser.LetName | parser.cpp:195-198 | the method returns exactly the result of the function `ParserSpec.LetName`, error message included, and on success the parser stands where that function stops |
| Parsing.Parser.LetTail | parser.cpp:199-216 | the method returns exactly the result of the function `ParserSpec.LetTail`, error message included, and on success the parser stands where that function stops |
| Parsing.Parser.LetEnd | parser.cpp:210-216 | the method returns exactly the result of the function `ParserSpec.LetEnd`, error message included, and on success the parser stands where that function stops |
| Parsing.Parser.ParseInit | parser.cpp:211-214 | the method returns exactly the result of the function `ParserSpec.ParseInit`, error message included, and on success the parser stands where that function stops |
| Parsing.Parser.ParseCondition | parser.cpp:221-226 | the method returns exactly the result of the function `ParserSpec.ParseCondition`, error message included, and on success the parser stands where that function stops |
| Parsing.Parser.ParseIf | parser.cpp:219-231 | the method returns exactly the result of the function `ParserSpec.ParseIf`, error message included, and on success the parser stands where that function stops |
| Parsing.Parser.IfBranches | parser.cpp:227-230 | the method returns exactly the result of the function `ParserSpec.IfBranches`, error message included, and on success the parser stands where that function stops |
| Parsing.Parser.ElseBranch | parser.cpp:228-229 | the method returns exactly the result of the function `ParserSpec.ElseBranch`, error message included, and on success the parser stands where that function stops |
| Parsing.Parser.ParseWhile | parser.cpp:233-241 | the method returns exactly the result of the function `ParserSpec.ParseWhile`, error message included, and on success the parser stands where that function stops |
| Parsing.Parser.ParseFor | parser.cpp:243-253 | the method returns exactly the result of the function `ParserSpec.ParseFor`, error message included, and on success the parser stands where that function stops |
| Parsing.Parser.ForRange | parser.cpp:246-250 | the method returns exactly the result of the function `ParserSpec.ForRange`, error message included, and on success the parser stands where that function stops |
| Parsing.Parser.ForBody | parser.cpp:250-252 | the method returns exactly the result of the function `ParserSpec.ForBody`, error message included, and on success the parser stands where that function stops |
| Parsing.Parser.ParseReturn | parser.cpp:255-262 | the method returns exactly the result of the function `ParserSpec.ParseReturn`, error message included, and on success the parser stands where that function stops |
| Parsing.Parser.ReturnValue | parser.cpp:259 | the method returns exactly the result of the function `ParserSpec.ReturnValue`, error message included, and on success the parser stands where that function stops |
| Parsing.Parser.ParsePrint | parser.cpp:264-279 | the method returns exactly the result of the function `ParserSpec.ParsePrint`, error message included, and on success the parser stands where that function stops |
| Parsing.Parser.PrintTail | parser.cpp:268-278 | the method returns exactly the result of the function `ParserSpec.PrintTail`, error message included, and on success the parser stands where that function stops |
| Parsing.Parser.PrintEnd | parser.cpp:276-278 | the method returns exactly the result of the function `ParserSpec.PrintEnd`, error message included, and on success the parser stands where that function stops |
| Parsing.Parser.PrintArgs | parser.cpp:270-275 | the method returns exactly the result of the function `ParserSpec.PrintArgs`, error message included, and on success the parser stands where that function stops |
| Parsing.Parser.SkipExpressions | parser.cpp:274 | the method returns exactly the result of the function `ParserSpec.SkipExpressions`, error message included, and on success the parser stands where that function stops |
| Parsing.Parser.ParseParams | parser.cpp:72-91 | the method returns exactly the result of the function `ParserSpec.ParseParams`, error message included, and on success the parser stands where that function stops |
| Parsing.Parser.ParamStep | parser.cpp:82-88 | the method returns exactly the result of the function `ParserSpec.ParamStep`, error message included, and on success the parser stands where that function stops |
| Parsing.Parser.ParseFunction | parser.cpp:64-111 | the method returns exactly the result of the function `ParserSpec.ParseFunction`, error message included, and on success the parser stands where that function stops |
| Parsing.Parser.FunctionTail | parser.cpp:92-110 | the method returns exactly the result of the function `ParserSpec.FunctionTail`, error message included, and on success the parser stands where that function stops |
| Parsing.Parser.ParseReturnType | parser.cpp:94-99 | the method returns exactly the result of the function `ParserSpec.ParseReturnType`, error message included, and on success the parser stands where that function stops |
| Parsing.Parser.ParseStruct | parser.cpp:113-141 | the method returns exactly the result of the function `ParserSpec.ParseStruct`, error message included, and on success the parser stands where that function stops |
| Parsing.Parser.StructFields | parser.cpp:120-138 | the method returns exactly the result of the function `ParserSpec.StructFields`, error message included, and on success the parser stands where that function stops |
| Parsing.Parser.FieldDecl | parser.cpp:121-137 | the method returns exactly the result of the function `ParserSpec.FieldDecl`, error message included, and on success the parser stands where that function stops |
| Parsing.Parser.ParseTypeAlias | parser.cpp:143-160 | the method returns exactly the result of the function `ParserSpec.ParseTypeAlias`, error message included, and on success the parser stands where that function stops |
| Parsing.Parser.AliasBody | parser.cpp:147-159 | the method returns exactly the result of the function `ParserSpec.AliasBody`, error message included, and on success the parser stands where that function stops |
| Parsing.Parser.ParseItems | parser.cpp:48-62 | the method returns exactly the result of the function `ParserSpec.ParseItems`, error message included, and on success the parser stands where that function stops |
| Parsing.Parser.ParseItem | parser.cpp:51-56 | the method returns exactly the result of the function `ParserSpec.ParseItem`, error message included, and on success the parser stands where that function stops |
| Parsing.Parser.ParseProgram | parser.cpp:40-46 | `parseProgram` returns exactly what the function `ParserSpec.ParseProgram` gives: the items, or the leftover-tokens error when they do not reach the end |
| Parsing.Parse | parser.cpp:11-46 | constructing the parser and parsing the program returns exactly `ParserSpec.ParseTokens`: a lexical error on a leading ERR, else the program parse |
| TypeChecking.TypeChecker.constructor | Prueba_gencode_1/TypeChecker.cpp:26-31 | a new checker has no scopes and no functions |
| TypeChecking.TypeChecker.AddFunction | Prueba_gencode_1/TypeChecker.cpp:37-50 | registering succeeds exactly when the name is new and the return type is valid, and then maps the name to its return tag |
| TypeChecking.TypeChecker.VisitStm | Prueba_gencode_1/TypeChecker.cpp:125-162 | a statement checks exactly when the statement rules hold: print of `i32`/`bool`, assignment of the declared type to a declared variable, return of a numeric, `bool` or `void` value |
| TypeChecking.TypeChecker.VisitVarDec | Prueba_gencode_1/TypeChecker.cpp:91-105 | a declaration succeeds exactly when its type is valid and no name is visible in any scope, and then declares each name in the innermost scope |
| TypeChecking.TypeChecker.VisitVarDecs | Prueba_gencode_1/TypeChecker.cpp:71-72 | the declarations in order, stopping at the first failure |
| TypeChecking.TypeChecker.VisitBody | Prueba_gencode_1/TypeChecker.cpp:78-85 | a body checks in a scope of its own, which is popped afterwards |
| TypeChecking.TypeChecker.VisitFunDec | Prueba_gencode_1/TypeChecker.cpp:107-119 | a function checks exactly when its parameter types are valid and its body checks with the parameters in scope; the scopes are restored |
| TypeChecking.TypeChecker.VisitProgram | Prueba_gencode_1/TypeChecker.cpp:65-76 | a program checks exactly when every function registers, the globals declare, and every function checks |
| TypeChecking.TypeChecker.AddFunctions | Prueba_gencode_1/TypeChecker.cpp:67-68 | registering all functions succeeds exactly when the registration function succeeds, with the same table |
| TypeChecking.TypeChecker.VisitFunDecs | Prueba_gencode_1/TypeChecker.cpp:73-74 | the functions check exactly when each checks in the global scope |
| TypeChecking.RestoreAfterDecls | Prueba_gencode_1/TypeChecker.cpp:78-85 | declarations in a pushed scope leave the scopes below it untouched, so popping restores them |
| TypeChecking.DeclsKeepOuter | Prueba_gencode_1/TypeChecker.cpp:91-105 | declarations only change the innermost scope |
| TypeChecking.DeclareVars | Prueba_gencode_1/TypeChecker.cpp:98-104 | declaring names keeps the number of scopes and changes none but the innermost |
| TypeChecking.TypeOfNeverNoType | Prueba_gencode_1/TypeChecker.cpp:168-225 | with no untyped entries in the tables, no expression gets the untyped tag |
| TypeChecking.BinaryTyping | Prueba_gencode_1/TypeChecker.cpp:172-194 | arithmetic needs two numeric operands of the same type and keeps it, `<=` needs the same and gives `bool`, `&&` needs two `bool` |
| TypeChecking.CallArgumentsUnchecked | Prueba_gencode_1/TypeChecker.cpp:218-225 | a call is typed by the callee's return type alone, and only when the callee is registered |
| TypeChecking.DeclareVarsFresh | Prueba_gencode_1/TypeChecker.cpp:98-104 | a successful declaration has distinct names none of which was visible, each now bound to the type |
| TypeChecking.DeclareVarsKeeps | Prueba_gencode_1/TypeChecker.cpp:98-104 | declaring other names leaves a name's binding as it was |
| TypeChecking.RegisteredFunctions | Prueba_gencode_1/TypeChecker.cpp:37-50 | a successful registration has distinct new names, each mapped to its return type |
| TypeChecking.RegisterFunctions | Prueba_gencode_1/TypeChecker.cpp:37-50 | a successful registration keeps every earlier entry, and none of the registered names was registered before |
| TypeChecking.TypeOf | Prueba_gencode_1/TypeChecker.cpp:168-225 | a typed arithmetic expression is numeric and any other typed binary expression is `bool`; a call is typed exactly when its callee is registered; an identifier has the type of its innermost binding |

## Left out

- Integer width: C++ `int` and `long long` fields and results are unbounded integers here; 64-bit wrap-around and overflow are not modelled.
- Peephole.Fold: the folded immediate is the unbounded sum or difference of the two immediates, not its 64-bit wrap-around.
- Layout.ArrayCount: an array count that `stoi` rejects, because no number is written or because it lies outside the `int` range, gives 0 where the source throws `invalid_argument` or `out_of_range`; exceptions are not modelled.
- Floating point: a float literal's bit pattern (`stod` plus the IEEE 754 bit copy) is a parameter `bits` of the generator; SSE arithmetic is modelled only as the instruction text emitted.
- Alias chasing on a cyclic alias map loops forever in the source; the generator's methods and functions require an acyclic alias map, and the default insertion of `operator[]` on a missing alias is not modelled.
- CodeGen.GenCodeVisitor.VisitFunDec: requires `ParamsTyped`, i.e. every register-passed parameter has a type entry; the source indexes the type vector out of range otherwise.
- CodeGenProperties.LetTakesAlignedBlock: requires a non-negative storage size and non-negative struct sizes; a negative array count makes the source's allocation arithmetic meaningless. Any initialiser is allowed, struct literals included.
- CodeOptimization.BarriersKept: requires `Separable`: no move or arithmetic line that value numbering reads has `:` in an operand, since such an operand would come back as a register name ending in `:` and the rewritten line would look like a label. Comments, such as the generator's cache-reuse comment, and every other line may hold `:`; `CodeGenProperties.ReloadSeparable` shows that the generator's cache-hit lines qualify.
- Dag.Emit: requires an acyclic, fully labelled node list, which every list the pass builds is.
- Text.NonEmpty: its own contract states only that the result has no empty line and is no longer than the input; its exact contents are pinned down by the block-segmentation lemmas that use it.
- An empty operand's `back()` and a register's `[0]` are undefined behaviour in the source; the model gives them a fixed, safe value.
- Block segmentation drops only empty lines, as the code does; lines holding only blanks are kept.
- `getline` over the buffered output is modelled as splitting the buffered text on newlines.
- Iteration order of the global-symbol `unordered_map`: the emission order of globals is an arbitrary enumeration of its keys, chosen nondeterministically.
- Output and diagnostics: `printOptimizationStats`, the success messages of the parser and the type checker, `ejecutar_scanner`'s file output, and `cerr` messages followed by `exit` are not modelled; a fatal error is a `false`, `None` or `Err` result.
- Null AST pointers, `delete` and destructors are not modelled; the parser's `current`/`previous` token pointers are a token sequence and a position.
- Semantic equivalence of the peephole and DAG rewrites under x86-64 execution is not modelled, as the system has no machine model; only structural and textual properties are proved.
- The CLI driver, the HTTP front end and the older prototype copies of the generator and parser are not part of this model.

## Findings

| source | as written | input that shows it | evidently intended | confidence | as-written member | corrected member |
|---|---|---|---|---|---|---|
| visitor.cpp:364-419 | a local's block is its size rounded up to 8 bytes, so a local of size 0 reserves nothing and gets `nextStackOffset + 8`, the slot of the variable declared just before it; with no initialiser its size is at most 8, so `movq $0` is written to that slot | `let x: i64 = 5; let a: i32[0];` inside a function: `a` gets the offset of `x`, the store zeroes `x`, and reading `x` afterwards gives 0 instead of 5 | every local reserves at least one slot, so its zeroing store stays inside its own block and later blocks lie below it | not executed | CodeGenProperties.ZeroSizeLetOverwrites | CodeGenProperties.ReservedLetsDisjoint |
