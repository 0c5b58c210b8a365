# GigglyCode build driver and diagnostics, modelled in Dafny

This project models two parts of the GigglyCode compiler driver.

- **The incremental directory build** of `src/main.cpp`:
  - `setIrGcMap` marks a unit's side table (its `ir_gc_map` JSON) up to date or not. The test is the compiled-files record: does it hold the fingerprint of the unit's current text?
  - `compileFile` skips a unit that is up to date. Otherwise it parses the unit, runs the compiler and records the new fingerprint.
  - `compileDirectory` has two passes over the `.gc` files of the source tree. It names each unit's artifacts after the unit's path relative to the source directory. Each unit is compiled through a work stack: when the compiler reports that a unit depends on a unit not compiled yet (`NotCompiledError`), the dependency's job is pushed above it.
- **The source-context block** of the four diagnostic kinds in `src/errors/errors.cpp`:
  - The `LineIterator` reads a window of lines with `std::getline`.
  - The four `raise` variants print numbered context lines, caret underlines and the suggested fix.

Modules:

- `TextLines` (`text_lines.dfy`): the lines `std::getline` extracts from a text, and the line count the renderers compare against.
- `LineStream` (`line_stream.dfy`): a string stream with its eof and fail bits, `std::getline`, and the `LineIterator` as methods with loops.
- `Diagnostics` (`diagnostics.dfy`): the four renderers as functions from a diagnostic to a sequence of abstract output lines. An output line is a numbered source line, an underline, or the fix.
- `Paths` (`paths.dfy`): `extension()`, `filename()`, the stem `substr(0, find_last_of('.'))`, and the three artifact paths.
- `Build` (`build.dfy`): the record, side tables, `setIrGcMap`, `compileFile`, the work-stack loop and the two directory passes.

What the model takes as parameters:

- File contents are a map from path to text. A missing file reads as "", as `readFileToString` returns.
- The fingerprint (`std::hash`), the lexer and parser, and the compiler are fields of a `Toolchain` value:
  - the parser maps a text to its diagnostics;
  - the compiler maps a unit, its text and the current side tables either to `Blocked(dep)` (the `NotCompiledError`) or to the unit's finished side table.
- The directory walk is a sequence of entries. Both passes see the same walk.
- The work-stack loop gets a bound `fuel` on its number of turns.

## Model

| member | source | states |
|---|---|---|
| TextLines.JoinSplitLines | src/errors/errors.cpp:11-14 | Joining the lines `getline` extracts with '\n', plus the final '\n' when the text had one, gives back the text: no character is lost or invented. |
| TextLines.SplitLinesNoNewline | src/errors/errors.cpp:11-14 | No extracted line contains a '\n'. |
| TextLines.SplitUnlines | src/errors/errors.cpp:11-14 | Splitting newline-terminated lines gives back exactly those lines. |
| TextLines.NumberOfLinesVsSplit | src/errors/errors.cpp:70 | The assumed line count is the number of extracted lines, plus one exactly when the text is empty or ends with '\n'. |
| TextLines.SplitLines | src/errors/errors.cpp:11-14 | `getline` extracts no line at all exactly when the text is empty. |
| LineStream.GetLine | src/errors/errors.cpp:19 | `getline` on a failed or exhausted stream sets the fail bit and leaves the target unchanged; on an empty healthy stream it fails and yields "". Otherwise it yields the characters up to the next '\n', consumes the '\n', and loses nothing from the stream. It sets eof exactly when no '\n' was left, and then the stream is empty. |
| LineStream.GetLineTakesFirstLine | src/errors/errors.cpp:19 | On a healthy stream with lines left, `getline` yields the first line, keeps exactly the remaining lines, and leaves the stream healthy. |
| LineStream.GetLineTracksEnd | src/errors/errors.cpp:11-19 | A `getline` on a healthy stream keeps two facts about the text's end: what is left ends in '\n' exactly when the text does, and eof is set only for a text with no final '\n'. |
| LineStream.Construct | src/errors/errors.cpp:8-15 | The constructor stops at `current_line_no == start`. It remembers line `start - 1` with its '\n' as the line before the start ("" for line 1), and leaves exactly the lines from `start` in the stream. |
| LineStream.ReadThrough | src/errors/errors.cpp:17-29 | The `has_next`/`next` loop yields exactly the lines `start..end` in order. |
| LineStream.Window | src/errors/errors.cpp:8-36 | The iterator yields line `start - 1` with its '\n' ("" for line 1) as the line before, then exactly the lines `start..end`, then the line after `end`. A line past the last one reads as "": this covers the empty line after a final '\n' and the line after the text. |
| Diagnostics.FirstUnderline | src/errors/errors.cpp:136-142 | The first span line's underline is `col_no` spaces then carets up to `end_col_no`, cut to the line's length. |
| Diagnostics.RenderError | src/errors/errors.cpp:60-77 | `Error::raise` shows a run of consecutive source lines: from `st_line - 1` (when above line 1), through `end_line + 1` (when below the line count). Each line is numbered and shows the line its number names, "" for the empty line after a final '\n'. The fix follows, once and last, exactly when it is non-empty. |
| Diagnostics.RenderNoPrefixParseFn | src/errors/errors.cpp:93-110 | The same block over the token's single line. |
| Diagnostics.RenderSyntax | src/errors/errors.cpp:125-154 | As written: the lead line, and each line of the token's span followed by its underline (the first from the token's columns, later ones full carets). The line after the span is shown with the text of line `SpanEnd + 1` but the label `line_no + 1`. The span may end on the empty line after a final '\n', which shows as "" with an empty underline. |
| Diagnostics.SyntaxOnLineAfterText | src/errors/errors.cpp:125-142 | A one-line token on the empty line after a text's final '\n' (or in an empty text) is a valid diagnostic: its line shows as "" and its underline is empty. |
| Diagnostics.SyntaxTrailingLabelRepeats | src/errors/errors.cpp:146-147 | For a token spanning several lines, the as-written block repeats a line number. The trailing line does not show the line it names unless the two lines read the same. |
| Diagnostics.SyntaxTrailingLabelExample | src/errors/errors.cpp:125-148 | For a two-line token on line 1 of "a\nb\nc", the as-written block is `1 a`, `^`, `2 b`, `^`, `2 c`. |
| Diagnostics.RenderSyntaxFixed | src/errors/errors.cpp:125-154 | The same layout, over the same tokens (spans up to the empty line after a final '\n'), with the trailing line labelled `SpanEnd + 1`. Every numbered line then shows its source line, and the numbers strictly increase. |
| Diagnostics.SyntaxFixOnlyRenumbersTrailing | src/errors/errors.cpp:146-147 | The correction changes nothing but the trailing line's number: both blocks have the same length, agree before the trailing line and after it, and show the same text on it; without a trailing line they are equal. |
| Diagnostics.RenderCompletion | src/errors/errors.cpp:167-180 | `CompletionError::raise` shows the lines `st_line..end_line` and the line after, numbered and faithful, with no line before the range, then the fix. |
| Diagnostics.CompletionDropsLeadingLine | src/errors/errors.cpp:167-176 | A completion block is the `Error` block over the same range without its leading line. |
| Diagnostics.TrailingLinePastFinalNewline | src/errors/errors.cpp:70-71 | When the text ends in '\n' and the range reaches its last line, the block ends with an empty line numbered one past the last line. |
| Diagnostics.PrintBody | src/errors/errors.cpp:65-69 | The `has_next`/`next` loop prints each line it is given under the numbers `st_line`, `st_line + 1`, …, in order. |
| Diagnostics.RaiseError | src/errors/errors.cpp:60-77 | Driving the `LineIterator` as `Error::raise` does prints exactly the block `RenderError` describes. |
| Diagnostics.RaiseNoPrefixParseFn | src/errors/errors.cpp:93-110 | Driving the `LineIterator` over the token's line prints exactly the block `RenderNoPrefixParseFn` describes. |
| Diagnostics.RaiseCompletion | src/errors/errors.cpp:167-180 | Driving the `LineIterator` as `CompletionError::raise` does prints exactly the block `RenderCompletion` describes. |
| Diagnostics.PrintSpan | src/errors/errors.cpp:130-145 | The loop of `SyntaxError::raise` prints each line of the span under its number, each followed by its underline: the first from the token's columns, later ones full carets, every one cut to its line's length. |
| Diagnostics.PrintTail | src/errors/errors.cpp:146-153 | The end of `SyntaxError::raise` prints the line after the span exactly when the span ends above the line count, then the fix exactly when it is non-empty. |
| Diagnostics.RaiseSyntax | src/errors/errors.cpp:115-157 | Driving the `LineIterator` as `SyntaxError::raise` does prints exactly the block `RenderSyntax` describes. |
| Diagnostics.Render | src/errors/errors.cpp:60-180 | Every kind of diagnostic whose lines lie within the line count (the empty line after a final '\n' included), syntax errors numbered as corrected, shows faithful, strictly increasing line numbers. The fix appears once, last, exactly when non-empty. |
| Paths.LastIndexOf | src/main.cpp:198 | `find_last_of` returns a position holding the character with no later occurrence, or npos (-1). |
| Paths.FileNameShape | src/main.cpp:189 | `filename()` is a suffix of the path with no '/' in it. When it is not the whole path, a '/' comes right before it. |
| Paths.ExtensionShape | src/main.cpp:189 | `extension()` is "", or a proper suffix of the name that starts with its only '.'. |
| Paths.StripExtensionShape | src/main.cpp:198 | The stem ends right before the path's last '.', and no '.' follows that one. When the path has no '.', the stem is the whole path. |
| Paths.RelativeBelow | src/main.cpp:197 | The relative path of a path below `srcDir` gives back the path when `srcDir + "/"` is put in front. Any other path is its own relative path. |
| Paths.UnitExtension | src/main.cpp:189 | A path has extension ".gc" exactly when it ends in ".gc" and its file name has something before that suffix. |
| Paths.FileNameBelow | src/main.cpp:189 | Below a directory, a path has the file name of its part below it. |
| Paths.RelativeOfChild | src/main.cpp:197 | The relative path of `srcDir/rel` is `rel`. |
| Paths.UnitStem | src/main.cpp:198 | The stem of a path ending in ".gc" (every unit's) is the path without ".gc", and putting ".gc" back gives the path. |
| Paths.UnitArtifacts | src/main.cpp:197-200 | A unit `dir/name.gc` gets `ir/dir/name.ll`, `ir_gc_map/dir/name.json` and `obj/dir/name.o` under the build directory. |
| Paths.ArtifactsDistinct | src/main.cpp:198-200 | A unit's three artifact paths differ from each other. |
| Paths.ArtifactInjective | src/main.cpp:211-215 | Two paths ending in ".gc" (so any two units) never share an artifact path of the same kind. |
| Build.UnreadableAsEmpty | src/main.cpp:24-34 | A file that cannot be opened reads as "", and `compileFile` treats the unit exactly as it would the same unit with an empty text. |
| Build.RecordMakesUpToDate | src/main.cpp:84 | Writing a unit's current fingerprint into the record makes it pass the skip test. Every other path passes the test exactly when it did before. |
| Build.JobForUnit | src/main.cpp:197-200 | The job of the unit `srcDir/rel` is the unit's path with `ir/<stem>.ll`, `ir_gc_map/<stem>.json` and `obj/<stem>.o` under the build directory, where `<stem>` is `rel` without its ".gc". The catch branch at src/main.cpp:211-215 names a dependency's artifacts the same way. |
| Build.SetIrGcMap | src/main.cpp:36-76 | A missing side table starts with `uptodate` false and empty `functions` and `structs`; an existing one keeps its tables. `uptodate` becomes true exactly when the record holds the unit's current fingerprint. The record and all other tables are unchanged. |
| Build.CompileFile | src/main.cpp:78-182 | Skips exactly when up to date. Stops at parse errors (carrying them) exactly when not up to date and the parser reports errors. Stops at a `NotCompiledError` (carrying the compiler's dependency) exactly when the unit parsed and the compiler is blocked; compiles exactly when the unit parsed and the compiler finished. A stop changes nothing. On success it records the unit's current fingerprint and changes no other record entry; it stores the compiler's table with `uptodate` set to true, changes no other table, and lists the unit as compiled. |
| Build.CompileThenSkip | src/main.cpp:84-87 | Right after a unit is compiled, compiling it again skips it and changes nothing. |
| Build.CompileKeepsUpToDate | src/main.cpp:173 | Compiling any unit leaves every up-to-date unit up to date. |
| Build.RefreshMatchesSkip | src/main.cpp:64-68 | Right after `setIrGcMap`, a unit's table says up to date exactly when `compileFile` would skip the unit. |
| Build.Step | src/main.cpp:203-217 | `compileFile` runs on the top job. A normal return pops exactly that job; a `NotCompiledError` keeps it and pushes the dependency's job above it. |
| Build.StepShape | src/main.cpp:203-217 | One turn keeps the stack's shape: the seed stays at the bottom, the stack empties only by the seed returning, and after a dependency signal the dependency is on top of its dependent. |
| Build.StepOrdered | src/main.cpp:209-216 | One turn keeps "the call after a `NotCompiledError` is on the dependency's job". |
| Build.StepRetried | src/main.cpp:205-207 | One turn keeps "when the dependency returns on its first call, the next call retries the unit that needed it". Deeper chains are covered by `Build.RunRetries`. |
| Build.StepRun | src/main.cpp:203-217 | One turn extends the run by exactly one `Step` from the current stack and state. |
| Build.RunKeepsBelow | src/main.cpp:203-216 | After a `NotCompiledError`, the jobs below the pushed dependency stay in place as long as the stack stays deeper than it was. |
| Build.RunRetries | src/main.cpp:203-216 | However long the dependency's own chain, when the stack first comes back to its depth at a `NotCompiledError` it is the very same stack, and the next call retries the unit that raised the error. |
| Build.StepFresh | src/main.cpp:173 | One turn loses no progress: up-to-date units stay so, and compiled units are up to date. |
| Build.RunCalls | src/main.cpp:205-206 | A run makes exactly the `compileFile` calls of its trace, each on the state the previous call left. |
| Build.DoneInAppend | src/main.cpp:205-207 | A unit is compiled in two runs one after the other exactly when one of the runs compiles it. |
| Build.StepFramed | src/main.cpp:173 | One turn changes the record only at the unit it compiles. |
| Build.StepStale | src/main.cpp:143-148 | One turn keeps "every unit stopped at parse errors has them and is not up to date". |
| Build.StepTurn | src/main.cpp:203-217 | One turn keeps every invariant of the loop together, the run included. |
| Build.Drive | src/main.cpp:202-221 | The loop for one unit is the run of `Step`s from the stack holding the unit's job: it returns every intermediate stack and state, and each turn is one `Step` from the previous ones. So its calls are `compileFile` calls, each on the state the previous one left. It stops early only on an empty stack, which happens only by the unit itself returning normally. It calls each dependency right after the signal naming it. Through the run, `Build.RunRetries` gives the retry of the dependent when the dependency's chain is done. No progress is lost: units skipped or compiled end up to date. The record changes only at units compiled, never at a unit with parse errors, and every unit stopped at parse errors is still not up to date. An up-to-date unit takes one skipping call that changes nothing. |
| Build.Loop | src/main.cpp:203-221 | The work-stack loop as a recursive function makes at most `fuel` calls. It stops with a non-empty stack only after using all of them. Its first call is on the top job, and with an empty stack or no turns it changes nothing. |
| Build.RunIsLoop | src/main.cpp:203-221 | A run that has stopped, its stack empty or its turns used, is what `Loop` computes from any of its intermediate stacks and states. |
| Build.DriveIsLoop | src/main.cpp:202-221 | A stopped run seeded with a unit's job is that unit's `Loop`. |
| Build.EntryIsLoop | src/main.cpp:196-221 | What one iteration of the second pass returns is the entry's loop: its final state, its calls, and settled exactly when the loop's stack is empty. |
| Build.MapOfDistinct | src/main.cpp:190 | Two distinct units of a walk have distinct side-table paths. |
| Build.RefreshMarks | src/main.cpp:188-191 | One refresh turn marks the unit's table without disturbing the tables of units already marked. |
| Build.RefreshOnlyUnits | src/main.cpp:189-190 | One refresh turn creates a side table only for its own entry, and only when that entry is a unit. |
| Build.SetIrGcMapFlagsOnly | src/main.cpp:43-62 | `setIrGcMap` changes only `uptodate` flags: it keeps every table, keeps an existing table's `functions` and `structs`, and starts a missing table empty. |
| Build.RefreshTables | src/main.cpp:188-192 | After the first pass, every unit's table exists and says up to date exactly when the unit is. Tables of no unit, and the record, are unchanged, and every new table is some unit's. Every table keeps its `functions` and `structs`, and every new table has none. |
| Build.CompileEntry | src/main.cpp:196-221 | A non-unit entry makes no call and changes nothing. A unit is driven from a stack holding exactly its own job: the calls form one run of `Step`s from there. The entry is settled exactly when the final stack is empty; otherwise it has used all its `fuel` turns. Its calls chain through the states, no progress is lost, the record changes only at units compiled, and units stopped at parse errors stay stale. A settled unit was taken off by its own normal return. An up-to-date unit takes one skipping call. |
| Build.CallsAppend | src/main.cpp:195-221 | Two runs of calls, the second starting where the first stopped, make one run. |
| Build.FramedAppend | src/main.cpp:173 | Record changes of two runs together are only at units one of them compiled. |
| Build.StaleAppend | src/main.cpp:143-148 | Units stopped at parse errors in a first run stay stale while a second run keeps the entries of units with parse errors. |
| Build.CompileUnits | src/main.cpp:195-223 | The second pass is exactly the fold `Pass` over the walk: each unit's loop starts from the state the previous one left, the trace is the loops' calls in walk order, and the pass is complete exactly when every loop emptied its stack. When complete, every unit was taken off by a normal return. The calls chain through the states, no progress is lost, the record changes only at units compiled, and units stopped at parse errors stay stale. On an up-to-date tree every call skips and nothing changes. |
| Build.PassStep | src/main.cpp:195-223 | The pass from entry `i` on is entry `i`'s loop followed by the pass from `i + 1`, starting where that loop stopped. |
| Build.PassExtend | src/main.cpp:195-221 | Appending one entry's calls to the calls so far keeps them equal to the prefix of the fold `Pass`. |
| Build.PassTurn | src/main.cpp:195-221 | One iteration of the second pass keeps every invariant of the pass together, the fold included. |
| Build.PassVisits | src/main.cpp:195-206 | With at least one turn per loop, the second pass calls `compileFile` on every unit of the walk, stale or not. |
| Build.SettledOutcome | src/main.cpp:203-208 | Once every unit has returned normally, every unit is up to date or has parse errors. If no call stopped at parse errors, every unit is up to date. |
| Build.CompileDirectory | src/main.cpp:184-224 | The first pass marks every unit's table and changes only `uptodate` flags. It creates tables only for units, and they start empty. It leaves the record and other tables alone. The second pass is the fold `Pass` over the walk from the refreshed state. With at least one turn per loop, it calls `compileFile` on every unit of the walk. When every unit settles, every unit is up to date or has parse errors, and all are up to date when no call stopped at parse errors. No progress is lost and the record changes only at units compiled. On an up-to-date tree every call skips and the record is unchanged. |
| Build.CompileDirectoryTwice | src/main.cpp:184-224 | When a first build settles every unit with no parse errors, a second build on the same files skips every unit, settles, and leaves the record as it was. |

## Left out

- Writing files, JSON (de)serialisation and the console messages of `compileFile` and `compileDirectory` are not modelled. The state they persist is modelled: the record and the side tables.
- `create_directories` is not modelled.
- The `runtime_error`s thrown when a side-table file cannot be opened are not modelled.
- The `exit(1)` when the IR file cannot be opened is not modelled.
- The `DEBUG_LEXER` and `DEBUG_PARSER` blocks are left out; they are compiled out.
- The `clang` command is not modelled, and neither is its result. The record entry is written whether `clang` succeeds or fails, so the model updates the record on every successful compilation.
- The command line, `main`, linking and `compiled_files_record.json` loading and saving are outside the modelled functions.
- The lexer, parser and compiler are functions supplied as parameters. Which dependency the compiler reports, and the contents of its side table, are not modelled.
- `std::hash` is a parameter. Only equality of fingerprints matters. The model uses `nat` instead of the 64-bit `size_t`, which changes nothing here.
- Paths.Relative: `std::filesystem::relative` is modelled lexically. It removes a leading `srcDir + "/"` and leaves any other path as it is. It does not resolve `..`, symlinks or absolute paths, so a dependency path outside the source tree is not rewritten to `../…`.
- Build.Drive: the loop is bounded by `fuel` turns. The source has no bound, so a run that uses all its turns with the stack non-empty stands for a loop that never ends. There are two causes. A dependency cycle is one. The other is a dependency with parse errors: `compileFile` returns without compiling it, so it stays stale, and a compiler that names it again on the retried unit signals it for ever.
- The second pass seeds the work stack with every unit of the walk in turn. A unit already compiled as a dependency is skipped when its own turn comes only when the compiler names the dependency by the same path string the walk yields. The record is keyed by that string (`src/main.cpp:173`, `src/main.cpp:211`), while the compiler is given `std::filesystem::absolute(filePath)` (`src/main.cpp:150`). A dependency named by another spelling of the same file is recorded under a second key, and the walk compiles the unit again.
- The walk order of `recursive_directory_iterator` is unspecified. The model takes any sequence of distinct entries below the source directory, the same for both passes.
- TextLines.NumberOfLines: `getNumberOfLines` is not part of this model. It is assumed to count the '\n's plus one.
- Banners, the message header, ANSI colours and `terminate`/`exit` are not modelled. Output is reduced to a sequence of numbered lines, underlines and the fix.
- Diagnostics.RenderNoPrefixParseFn: the trailing line is printed without a '\n' at `src/errors/errors.cpp:104`, so the fix text follows it on the same terminal line. The model keeps them as separate output lines.
- Diagnostics.RenderError: the before-line carries its own '\n' from the iterator, and the model treats it as an ordinary output line.
- LineStream.Window: requires `start` to be at most one past the extracted lines and `end` at most the line count. Beyond that, the constructor's `getline` fails before `current_line_no` reaches `start`, so the loop ends early. The line before the start is then the text's last line, not line `start - 1`. `has_next` then yields `end - current_line_no + 1` lines, each a repeat of the last line read, because `getline` on a failed stream leaves it in place. The labels printed from `start` therefore run past `end`: for the text "a" with `start = end = 3` the block shows `2 | a`, `3 | a` and `4 | a`. Repeats come also when `start` is in range and `end` is past the line count. The constructor then succeeds, but once the stream is exhausted each `has_next` calls `getline` on it, which fails and leaves `current_line` in place, so `next` repeats the last line read up to `end`. For a text ending in '\n', the read right after the last extracted line still yields "" (the stream is empty but has not failed yet), and the reads after it repeat that "". The callers of the `raise` variants are not part of this model, so whether they pass such lines is not known here.
- Diagnostics.RenderSyntax: requires `0 <= col_no` and `col_no <= end_col_no`. A negative `col_no` makes `std::string(col_no, ' ')` throw `length_error`, and so does a reversed span through `std::string(end_col_no - col_no, '^')`. The model covers neither throw.

## Findings

| source | as written | input that shows it | evidently intended | confidence | as-written member | corrected member |
|---|---|---|---|---|---|---|
| src/errors/errors.cpp:146-147 | the line after a token's span is labelled `token.line_no + 1` while its text is line `line_no + getNumberOfLines(literal)` | a syntax error on token `"x\ny"` at line 1, column 0..1 of the unit "a\nb\nc" prints `2 \| c` right after `2 \| b` (`Diagnostics.SyntaxTrailingLabelExample`) | label it `token.line_no + getNumberOfLines(token.literal)`, the number of the line it shows, as the other kinds do | high for multi-line tokens; not executed | Diagnostics.RenderSyntax | Diagnostics.RenderSyntaxFixed |
