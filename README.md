# Hack VM translator: a Dafny model

This project models the core of a translator from the Hack virtual machine
language (the stack-machine language of the Nand2Tetris course) to Hack
assembly. It also proves properties of that model. The translator reads a
`.vm` file twice:

- `scan`, the first pass, checks every line against the instruction patterns
  and records each `function` declaration (name and local-variable count) in
  a table.
- `translate`, the second pass, turns every line that is neither blank nor a
  comment into assembly text. It keeps a label counter that comparisons and
  calls advance. It writes the text to the `.asm` file next to the source.

## Modules

| file | module | what it holds |
|---|---|---|
| `wrappers.dfy` | `Wrappers` | `Option` and `Result` |
| `strings.dfy` | `Strings` | character classes, greedy runs, `trim`, decimal numerals, first-occurrence `replace`, `replaceAll` of one character, `path.basename` |
| `instructions.dfy` | `Instructions` | the nine line patterns as recognisers; beside each, the language of the pattern and an exactness lemma |
| `instructions.dfy` | `InstructionFacts` | no line matches two patterns; every well-formed instruction has a text its pattern accepts |
| `parser.dfy` | `Parser` | `parse`: the patterns tried in the source's order |
| `parser.dfy` | `ParseFacts` | the lines `parse` reads as a comment or a return |
| `asm.dfy` | `Asm` | assembly lines as data, their text, the labels a block declares |
| `codegen.dfy` | `Codegen` | `generateCode` as a function of the token, the file name, the counter and the table |
| `codegen_facts.dfy` | `CodegenFacts` | the errors, counter steps, declared labels and counter-made labels of one block |
| `hack.dfy` | `Hack` | the Hack machine: A, D, memory, the effect of each line that does not jump, and when a jump is taken |
| `effects.dfy` | `Effects` | what the push, pop, arithmetic and `goto` blocks do to memory |
| `calls.dfy` | `CallEffects` | what the call set-up and the return sequence do to memory, and that a call followed by its return gives the caller back its frame |
| `translation.dfy` | `Translation` | the two passes as functions over the lines of a file, and their properties |
| `translator.dfy` | `Translator` | the `Translator` class: its label counter and function table as fields, with `scan` and `translate` as loops over the lines |

## How the model is built

- The input is the sequence of lines the line reader delivers.
  - Each line is trimmed and parsed once, by `Lex`.
  - `ScanLines` and `EmitLines` are the two passes, as functions.
  - The methods `Translator.Scan` and `Translator.Translate` loop over the same
    lines. They are proved equal to those functions.
- Generated code is a sequence of `AsmLine` values, and `Render` writes it out.
  - Every line ends in `\n`.
  - The empty lines of the source's templates are `Blank`.
  - Text copied from the VM line stays text: `Text(name)`.
  - Labels made from the counter keep their structure: `IfTrue`, `IfFalse`,
    `Done` and `ReturnAddr`. Their text is exactly what the templates write,
    for example `EQ_3`, `NEQ_3`, `CONT_3` and `Main.fib$.7`.
- Exceptions become `Err` values. The code throws:
  - a `SyntaxError` for a line no pattern accepts;
  - a `ReferenceError` for a call of a function not in the table;
  - a `TypeError` when `generateCode` gets a token it has no case for (no
    type, or `comment`).
- Seven of the regular expressions are written as greedy scanners. For each
  of them, a lemma proves two things:
  - the scanner accepts exactly the lines of the pattern's language;
  - it captures exactly the pattern's named groups.
- The comment and return patterns capture no groups. They are written
  directly as their languages, and `ParseComment` and `ParseReturn` prove
  that `parse` gives those tokens for exactly those lines.
- The `call` pattern's first-character class is the range `[a-zA-z]`, which
  also admits `[`, `\`, `]`, `^`, `_` and a backquote. It is modelled as
  written (`AToz`), and `function` uses `[a-zA-Z]` (`Letter`).
- `Hack` gives a meaning to the generated code.
  - Memory is a map from addresses to unbounded integers. `&` and `|` are
    worked out bit by bit on the low 16 bits.
  - An `env` function stands for the addresses the assembler gives to
    symbols. The model does not assign them.
  - The effect lemmas state what each straight-line block does to memory.

The description of the program and its code differ in two places. The model
follows the code in both:

- `scan` counts every physical line, blank ones included, when it numbers the
  line of a syntax error.
- `return` restores LCL, ARG, THIS and THAT in that order, from the five slots
  below LCL.

## Model

| member | source | states |
|---|---|---|
| Instructions.ArithmeticLanguage | src/instructions.ts:3 | the arithmetic pattern yields operator `op` exactly for the lines made of `op`'s word and then either nothing or whitespace and a `//` comment |
| Instructions.ArithmeticComplete | src/instructions.ts:3 | every operator word followed by an allowed tail is accepted with that operator |
| Instructions.MatchComment | src/instructions.ts:6 | a line is a comment exactly when it starts with `//` and holds no line terminator after it |
| Instructions.CallLanguage | src/instructions.ts:8 | `call` yields (name, args) exactly for `call`, whitespace, a name of two or more characters starting in `[A-z]`, whitespace, a digit string, optional spaces and an optional comment |
| Instructions.FunctionLanguage | src/instructions.ts:12 | the same for `function`, with a name starting with an ASCII letter |
| Instructions.MatchReturn | src/instructions.ts:16 | a line is a return exactly when it is `return` followed by optional whitespace and an optional whitespace-led comment |
| Instructions.GotoLanguage | src/instructions.ts:20 | `goto` and `if-goto` yield (command, label) exactly for the keyword, whitespace, a label of word runs joined by `.` or `$`, and an allowed tail |
| Instructions.LabelLanguage | src/instructions.ts:23 | `label` yields its name exactly for the lines of that form |
| Instructions.PopLanguage | src/instructions.ts:25 | `pop` yields its target exactly for a segment other than `constant` and a digit index, or `pointer 0`/`pointer 1`, with an allowed tail |
| Instructions.PushLanguage | src/instructions.ts:29 | `push` yields its target exactly for a segment (`constant` included) and a digit index, or `pointer 0`/`pointer 1`, with an allowed tail |
| InstructionFacts.MatchAnnouncesKind | src/instructions.ts:1-32 | a line a pattern accepts has, in its first two characters, the prefix of that pattern's kind |
| InstructionFacts.PatternsExclusive | src/instructions.ts:1-32 | no line is accepted by the patterns of two different kinds |
| InstructionFacts.CanonicalCall | src/instructions.ts:8 | a well-formed call written with single spaces is accepted by the call pattern with the same fields |
| InstructionFacts.CanonicalPush | src/instructions.ts:29 | a well-formed push written with single spaces is accepted by the push pattern with the same target |
| Parser.FirstMatch | src/translator.ts:35-77 | trying the patterns in order yields a well-formed instruction, and only one that its own kind's pattern yields |
| Parser.Parse | src/translator.ts:35-77 | a parsed token is well formed: its fields are the captured groups |
| Parser.ParseSound | src/translator.ts:35-77 | the token parse returns is what the pattern of its kind yields on the line |
| Parser.ParseComplete | src/translator.ts:35-77 | whenever some pattern accepts a line, parse returns that pattern's token, whatever the order of the tests |
| Parser.ParseNone | src/translator.ts:35-77 | parse returns a token without a type exactly when no pattern accepts the line |
| ParseFacts.ParseComment | src/translator.ts:35-77 | parse gives a comment token exactly for the lines that are `//` followed by no line terminator; no earlier pattern takes them |
| ParseFacts.ParseReturn | src/translator.ts:35-77 | parse gives a return token exactly for `return` followed by optional whitespace and an optional whitespace-led comment |
| Parser.ParseCanonical | src/translator.ts:35-77 | parsing the canonical text of a well-formed instruction gives back that instruction |
| Strings.Trim | src/translator.ts:227 | the trimmed line is a slice of the line with only whitespace cut from both ends, and it neither starts nor ends with whitespace |
| Strings.NatToString | src/translator.ts:99-102 | the decimal numeral of the counter is a digit string without a leading zero, and its value is the number |
| Strings.NatToStringInjective | src/translator.ts:99-102 | different counter values give different numerals |
| Strings.ReplaceFirst | src/translator.ts:247-248 | the first occurrence of the pattern is replaced, and the text is unchanged when there is none |
| Strings.ReplaceChar | src/translator.ts:176 | every `/` of the file name becomes `.`, and every other character stays |
| Strings.Basename | src/translator.ts:247 | the base name is the suffix of the path after its last `/` |
| Asm.NameText | src/translator.ts:99-126 | a label made from the counter is written as its prefix followed by the counter's numeral |
| Asm.StampedTextInjective | src/translator.ts:99-126 | two labels made from the counter have the same text only if they are the same label |
| Asm.Declared | src/translator.ts:99-126 | the labels a block declares are exactly its `(label)` lines |
| Asm.RenderAppend | src/translator.ts:261 | the text of two blocks one after the other is the first text followed by the second |
| Codegen.Message | src/translator.ts:129-231 | the messages of the three exceptions |
| Codegen.Classify | src/translator.ts:96-106 | `neg` and `not` are the unary operators; `eq`, `lt` and `gt` are the comparisons; the rest are binary |
| CodegenFacts.GenerateFails | src/translator.ts:110-130 | generateCode fails exactly for a token without a type, a comment, or a call of a function not in the table, with a `ReferenceError` for the call and a `TypeError` otherwise |
| CodegenFacts.GenerateCounter | src/translator.ts:99-103 | a comparison or a call advances the counter by one, and every other token leaves it |
| CodegenFacts.CompareDeclares | src/translator.ts:99-103 | a comparison block declares `OP_n`, `NOP_n` and `CONT_n` for the current counter `n`, in that order, where `OP` is `EQ`, `LT` or `GT` (for example `LT_4`, `NLT_4`, `CONT_4`) |
| CodegenFacts.CallDeclares | src/translator.ts:115-126 | a call block declares only its return address `name$.n` |
| CodegenFacts.GenerateDeclares | src/translator.ts:90-208 | the labels a block declares are the function or label name, the comparison labels, the return address, or none |
| CodegenFacts.GenerateMentions | src/translator.ts:90-208 | every counter-made label a block mentions, as target or as declaration, is one of that block's own labels |
| CodegenFacts.BlockLabelsStamped | src/translator.ts:99-115 | a block's counter-made labels carry the counter value it was given, and none repeats |
| Effects.PushEffect | src/translator.ts:183-202 | `push` writes the segment's value at the top of the stack and advances SP; no other cell changes |
| Effects.PopEffect | src/translator.ts:165-181 | `pop` stores the top of the stack at the segment's address and retreats SP; R13 is scratch for the indirect segments; no other cell changes |
| Effects.PushThenPop | src/translator.ts:165-202 | `push t` followed by `pop t` on a segment other than `constant` leaves SP and the slot as they were; only R13 and the cell just above the stack may change |
| Effects.UnaryEffect | src/translator.ts:96-97 | `neg` and `not` replace the top of the stack with its negation or bitwise complement |
| Effects.BinaryEffect | src/translator.ts:104-105 | `add`, `sub`, `and` and `or` replace the two top values with their result and retreat SP by one |
| Effects.GotoEffect | src/translator.ts:152-158 | `goto` and `if-goto` end in their only jump, to the label; `goto` changes no memory before it and always jumps; `if-goto` first pops the top of the stack and jumps exactly when that value is not zero |
| CallEffects.SaveFrameEffect | src/translator.ts:117-121 | a call pushes the return address, LCL, ARG, THIS and THAT |
| CallEffects.PushZerosEffect | src/translator.ts:123 | the repeated block pushes one zero per local variable |
| CallEffects.CallSetupEffect | src/translator.ts:114-124 | after the call set-up, LCL points just above the saved frame, ARG points `args` cells below the old SP, the locals are zero and nothing else changes |
| CallEffects.RestoreRegistersEffect | src/translator.ts:141-144 | restoring distinct registers loads them from consecutive frame slots and steps R14 past them |
| CallEffects.UnwindEffect | src/translator.ts:139-145 | R13 gets ARG, R15 the return address, and LCL, ARG, THIS and THAT the saved pointers from the five slots below LCL |
| CallEffects.ReturnSetupEffect | src/translator.ts:137-150 | before its jump, a return puts the returned value where ARG pointed, SP just above it, R15 the return address, and the caller's pointers back |
| CallEffects.CallThenReturn | src/translator.ts:110-150 | if the callee keeps LCL, ARG and the saved frame, its return leaves SP one above the caller's arguments, the returned value there, R15 holding the return address and the caller's LCL, ARG, THIS and THAT |
| CallEffects.CallReturnsToCaller | src/translator.ts:110-150 | a call set-up followed at once by a return gives the caller back its four pointers and the return address |
| Translation.Lex | src/translator.ts:227-229 | a line is blank exactly when it trims to nothing; otherwise its token is the parse of the trimmed text |
| Translation.ScanLine | src/translator.ts:226-239 | one line of the scan fails exactly when its trimmed text has no token, with a `SyntaxError` naming that text, the line number and the file |
| Translation.ScanLines | src/translator.ts:219-243 | a failed scan names a line that exists |
| Translation.ScanFailsAtFirstInvalid | src/translator.ts:225-240 | the scan reports the first line no pattern accepts, with its 1-based number |
| Translation.ScanSucceeds | src/translator.ts:225-240 | a scan in which every non-blank line parses succeeds |
| Translation.ScanSucceedsOnlyIfValid | src/translator.ts:225-240 | a scan succeeds only if every non-blank line parses |
| Translation.ScanKeepsUndeclared | src/translator.ts:234-237 | a name no line declares keeps its table entry, or stays absent |
| Translation.ScanLastDeclarationWins | src/translator.ts:236 | the table holds the local-variable count of the last declaration of each function |
| Translation.EmitCounter | src/translator.ts:99-115 | translating lines advances the counter once for each comparison and each call |
| Translation.EmitFailsOnlyOnUndeclaredCalls | src/translator.ts:110-130 | after a successful scan, translation can fail only with a `ReferenceError` for a function that was called but never declared in the file or the table |
| Translation.EmitErrorLine | src/translator.ts:255-266 | a failed translation of parsed lines names a function some line calls, absent from the table |
| Translation.EmitIgnoresQuietLines | src/translator.ts:257-259 | blank and comment lines contribute nothing: the result equals that of the other lines alone |
| Translation.EmitDeclares | src/translator.ts:255-266 | the labels the output declares are the labels of its lines in order, each block's counter-made labels carrying that block's counter value |
| Translation.LabelsDistinct | src/translator.ts:99-115 | no counter-made label is declared twice in a file's output |
| Translation.EmitLabelTextsDistinct | src/translator.ts:99-115 | the counter-made labels of a file's output have pairwise different texts |
| Translation.EmitJumpsResolve | src/translator.ts:99-126 | every counter-made label the output jumps to is declared in the output |
| Translator.StaticPrefix | src/translator.ts:247 | the static prefix is the base name with its first `.vm` removed; it is the base name when there is none |
| Translator.OutFile | src/translator.ts:248 | the output path is the source path with its first `.vm` changed to `.asm`; it is unchanged when there is none |
| Translator.Translator.constructor | src/translator.ts:7-8 | a new translator has counter 0 and an empty table |
| Translator.Translator.GenerateCode | src/translator.ts:90-208 | the method returns the code or the error of `Generate`, and moves the counter exactly as `Generate` says; the table does not change |
| Translator.Translator.ScanLineOf | src/translator.ts:226-239 | one iteration of the scan: the error of the line, or the table with the line's declaration recorded; the counter does not change |
| Translator.Translator.Scan | src/translator.ts:219-243 | the scan loop returns the error of `ScanLines` or stores its table; on an error, the table holds the declarations of the lines before the bad line |
| Translator.Translator.TranslateLine | src/translator.ts:255-266 | one iteration of the translation: the code and counter step of the line, or its error |
| Translator.Translator.Translate | src/translator.ts:245-273 | translate returns the first error of the scan or of the translation; otherwise the output path and the text of `EmitLines` on the scanned table, with the counter advanced to match |

## Left out

- File input and output. The line reader, the write stream, promises and the `close` and `finish` events are not modelled. The lines of the file are a parameter, and the output is a returned value.
- A failed translation in the source may already have written part of its output file. The model returns only the error.
- An exception thrown in a reader callback escapes the promise and is not caught by the caller. The model returns it as an error value instead.
- `src/index.ts` (the command line) and `src/utils.ts` are not part of this model.
- Jumps are not executed. The Hack machine runs only code without jumps. For `goto` and `if-goto`, the model states whether the jump is taken, but not where control goes next. These blocks get facts about their labels only, not about what they do when run:
  - comparisons;
  - the final jump of a call and of a return.
- Generate (`Codegen.Generate`, and so `Translator.Translator.GenerateCode`): a call writes one push-zero block per local variable with JavaScript's `String.prototype.repeat`. For a local count of roughly 26.8 million or more, the text exceeds the longest string the JavaScript engine allows, and `repeat` throws a `RangeError`. The model has no string-length limit and returns the block.
- Words are unbounded integers. The 16-bit wrap-around of the Hack machine is not modelled, and neither is the precision limit of JavaScript's `Number` on very long index strings. `&` and `|` are the only exception, since they use the low 16 bits.
- The addresses the assembler gives to symbols are a parameter (`env`).
- Effects.PopEffect: assumes SP > 16 (`AboveRegisters`), so that the whole stack lies above R0-R15, as it does on the Hack platform. Below that, the pop could overwrite a register it still reads.
- PushThenPop (`Effects.PushThenPop`): assumes SP > 16 (`AboveRegisters`), for the same reason as `PopEffect`.
- BinaryEffect (`Effects.BinaryEffect`): assumes SP > 16 (`AboveRegisters`). With SP lower, the two operands would share cells with the registers the block writes.
- CallEffects.CallSetupEffect: assumes SP lies above the pointer registers.
- CallEffects.ReturnSetupEffect: assumes that the frame and ARG lie above the registers (`ReturnReady`).
- UnwindEffect (`CallEffects.UnwindEffect`): assumes LCL - 5 > 15, so that the saved frame lies above R15. A lower frame would overlap R13-R15, which the return uses as scratch.
- CallThenReturn (`CallEffects.CallThenReturn`): assumes that the caller's arguments start above R15 (SP - args > 15) and that the callee's stack lies above the registers (`AboveRegisters`) when it returns.
- CallReturnsToCaller (`CallEffects.CallReturnsToCaller`): assumes that the caller's arguments start above R15 (SP - args > 15).
- Translator.Translator.GenerateCode: requires a well-formed token and a table of digit strings. These are what `parse` and `scan` produce. Tokens built any other way are not modelled.
- Strings.Basename: models `path.basename` only for paths that do not end in `/`. Node's `path.basename` drops a trailing `/` before it takes the last part. Here, a path ending in `/` gets an empty base name.
- Translation.EmitLabelTextsDistinct: covers only the labels made from the counter. A label written in the VM file, such as `EQ_0`, can coincide with one of them, as it can in the source.
