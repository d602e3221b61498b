# silas interpreters in Dafny

The silas repository has two small stack-machine interpreters for prompt
programs: `silas.py` (the `>` push syntax, `## label` and `# function`
directives) and `vm.py` (the older `push`, `label` and `function` syntax).
Each one reads a program file. It filters and left-strips the lines, removes
the directive lines and records a symbol table of line indices. Then it runs
a dispatcher loop over the remaining lines. That loop updates module globals:
the value stack, the frame pointer `sp`, the program counter `pc` and the
locals `lcl`. Both interpreters have the same instructions: `push`, `pop`,
`dup`, `goto`, `if-goto`, `call` (for user functions and Python primitives),
`return` and `exit`.

The model has five modules:

- `Py` holds the Python built-ins the interpreters lean on, on `string`s:
  `strip`/`lstrip` with CPython's whitespace set, `split(" ", 1)`, `isdigit`,
  `int`, list indexing and the clamped slice `xs[-n:]`.
- `Runtime` holds the state shared by both interpreters (`Entry`, `State`,
  `Program`, `Prims`) and the store of dictionaries. It also holds, as functions, the instructions whose
  code is identical in both files, and the bounded dispatcher loop
  `AfterRun`, generic in its step.
- `Symbols` holds the directive-removal loop, generic in how a line is
  recognised as a directive. It proves that each symbol points at the line
  that followed its last directive.
- `Silas` and `Vm` each hold their interpreter: the preprocessing `Load`
  method (the in-place `lines.pop(i)` loop), the instructions that differ,
  line decoding, one dispatcher pass `AfterStep`, and a class `Interpreter`.
  Its fields `stack`, `sp`, `pc`, `lcl` and the store `dicts` are the
  globals. Each method of
  the class updates them in place and is proved equal to the matching
  specification function. `Step` and `Run` are proved against `AfterStep`
  and `AfterRun`.

The model follows the code of silas.py and vm.py. Where the code raises a
Python exception, the model names it with `ErrorKind` (`KeyError`,
`IndexError`, `TypeError`, `ValueError`, `AssertionError`).

Python dictionaries are objects, and the interpreters share them: a frame
holds the dictionary `lcl.copy()` made at the call, and `return_ctrl` makes
that very dictionary the current `lcl` again. So the state holds a store of
every dictionary the run has made (`dicts`), `lcl` and each frame name one
of them by its index (`Ref`), and `pop` writes into the current one in
place. A frame that is on the stack twice is then one frame, with one
dictionary, as in Python.

## Model

| member | source | states |
|---|---|---|
| Py.ListIndex | silas.py:276 | `lines[pc]` reads an element exactly when `-len <= pc < len`; a negative index counts from the end, anything else is `IndexError` |
| Py.TailStartCounts | silas.py:92-93 | `xs[-n:]` holds exactly the last `n` elements when `0 < n <= len`, and the whole list when `n == 0` or `n > len` |
| Py.SplitOnceFacts | silas.py:277-281 | `split(" ", 1)` gives one piece iff the line has no space; otherwise the two pieces joined by a space are the line and the first piece has no space |
| Py.SplitOnceOf | silas.py:277-281 | splitting `a + " " + b` with a space-free `a` gives back exactly `a` and `b` |
| Py.LStripFacts | silas.py:237 | `lstrip` returns a suffix that starts with no whitespace, and every character it removed is whitespace |
| Py.RStripFacts | silas.py:65 | `rstrip` returns a prefix that ends with no whitespace, and every character it removed is whitespace |
| Py.LStripNoSpace | vm.py:209 | left-stripping a line that already starts with no whitespace changes nothing |
| Py.RStripNoSpace | vm.py:94 | right-stripping a string that ends with no whitespace changes nothing |
| Py.StripNoSpace | silas.py:110 | a name without whitespace strips to itself |
| Py.StripLine | silas.py:65 | a whitespace-free word followed by `"\n"` strips to the word |
| Py.StripIdempotent | vm.py:92-96 | stripping twice is stripping once |
| Py.StripOfLStrip | silas.py:237 | `l.lstrip().strip() == l.strip()`, so the filter's blank test is the same before and after left-stripping |
| Runtime.RunMoreFuel | silas.py:275-318 | a run that ended within some bound ends the same way, in the same state, under any larger bound |
| Runtime.AssignFacts | silas.py:94 | `lcl[x] = popped` changes only the current dictionary, at the key: every other dictionary reads as before and none is lost |
| Runtime.PushFacts | silas.py:56-74 | `push` only appends: the old stack is a prefix, the appended part is the named local's list in the current dictionary or the entry itself, and `sp`, `pc`, `lcl` and every dictionary are unchanged |
| Runtime.PopFacts | silas.py:76-95 | `pop` succeeds iff the count is an int or strips to `*`; on success the stack plus the stored list is the old stack, the list is written into the current dictionary under the key only, and no other dictionary changes; a count `n` removes `n` entries; `*` keeps everything up to the frame; a digit string raises `TypeError`, anything else `AssertionError`, with the state unchanged |
| Runtime.DupFacts | silas.py:97-105 | `dup` succeeds iff the count is an int or exactly `"*"`; it appends a copy of a suffix of the stack (`n` entries, or everything above the frame for `*`) and changes nothing else; a string count raises `TypeError` |
| Runtime.GotoFacts | silas.py:107-112 | `goto` raises `KeyError` iff the stripped name is not a symbol; otherwise it changes only `pc`, to the symbol's address minus one |
| Runtime.ReturnFacts | silas.py:192-198 | `return_ctrl` succeeds iff `stack[sp]` is a frame; it removes exactly that element and restores `sp` and `pc` from it, and makes the frame's own dictionary (not a copy) the current `lcl`; an `sp` past the end raises `IndexError`; no dictionary changes |
| Runtime.PushThenPop | silas.py:56-95 | popping as many entries as a push added restores the old stack and stores the pushed entries under the key in the current dictionary |
| Runtime.ReturnLeavesResult | silas.py:192-198 | returning from a frame leaves what the callee put above it where the frame was, and restores the caller's `sp`, `pc` and `lcl` |
| Runtime.ReturnTwiceSeesPop | silas.py:192-198 | a frame on the stack twice is one object: after a return through it, a `pop` writes into the frame's own dictionary, so a second return through the same frame restores locals that hold the popped entry |
| Runtime.PrimitiveNet | silas.py:167-182 | a primitive call replaces its arguments by the primitive's result (a list spliced, one object appended) and leaves `sp` and `pc` as they were; the current dictionary is then the frame's new copy, with the caller's entries, and older dictionaries are untouched |
| Runtime.CallFrame | silas.py:167-189 | a call to a non-primitive puts the caller's frame where the arguments began, holding a new copy of the caller's locals, makes it current, puts the arguments back above it, makes a second new, empty dictionary the current one, leaves older dictionaries untouched, and jumps to the function or raises `KeyError` iff the name is unknown |
| Runtime.CallThenReturn | silas.py:146-198 | calling a non-primitive and returning at once gives back the caller's stack, `sp` and `pc`, with the frame's copy of the caller's locals as the current dictionary |
| Symbols.KeptFacts | silas.py:246-263 | no directive line survives the loop, it never adds lines, and every symbol indexes a kept line or the end of the program |
| Symbols.KeptAppend | silas.py:246-263 | directive removal works line by line: removing from `a + b` is removing from `a` and from `b` and joining the results |
| Symbols.SymbolsDomain | silas.py:251-261 | a name is in the symbol table iff some line is a directive for it |
| Symbols.SymbolOfLast | silas.py:251-261 | the last directive for a name decides its address: the number of lines kept before that directive |
| Symbols.SymbolTarget | silas.py:251-263 | each symbol points at the line that followed its last directive: from its address on, the program is exactly the kept lines after that directive |
| Symbols.WalkStep | silas.py:248-263 | one turn of the directive loop (pop the line at `i` for a directive, step over code) keeps its invariant and adds the directive's name at `i` |
| Silas.CleanFacts | silas.py:237 | every line after the filter is non-blank, not a lone `>!`, and starts with no whitespace; the filter never adds lines |
| Silas.CleanAppend | silas.py:237 | the filter treats each line on its own, in order |
| Silas.Load | silas.py:237-263 | the in-place loop leaves exactly the non-directive lines in their order (`Kept`) and the symbol table `SymbolsOf` for `##` and `#` directives |
| Silas.IfGotoFacts | silas.py:114-127 | `if_goto` pops exactly one element (an empty stack raises `IndexError`); `"True\n"` jumps as `goto` does, `"False\n"` falls through, anything else is an `AssertionError` |
| Silas.CallCount | silas.py:152-165 | a count other than `*` or digits is exactly the `AssertionError` case; `n > 0` takes the top `n`, 0 takes none, `*` takes everything above the frame |
| Silas.DecodePush | silas.py:284-293 | `> text` pushes the raw text, newline included, when the text does not start with `!` |
| Silas.DecodeShorthand | silas.py:284-291 | `> !f n` is `call f n`, and `> !f` is `call f 0` |
| Silas.DecodeCall | silas.py:306-308 | `call f n` calls `f` with count text `n`; a `call` line with no space after the name raises `ValueError` |
| Silas.DecodePop | silas.py:294-299 | `pop x n` passes the count as text; `pop x` uses the count 1 |
| Silas.DecodeOther | silas.py:314-316 | a first word that is no keyword is called as a function with the rest of the line as its count |
| Silas.BareLine | silas.py:277-316 | a line with no space and no keyword is called with an empty count and fails the `isdigit` assertion, leaving the state as it was |
| Silas.DupLine | silas.py:97-105 | `dup` from a line always receives text, so it raises unless the argument is exactly `*` with no newline |
| Silas.PopWithCount | silas.py:81-93 | `pop x n` succeeds iff `n` strips to `*`; a digit count raises `TypeError` at the slice, any other count `AssertionError` |
| Silas.NonJumpingAdvance | silas.py:283-318 | push, pop, dup, a primitive call and a non-jumping `if-goto` move `pc` on by exactly one when they complete, leave it when they raise, and never halt |
| Silas.ExitStops | silas.py:311-313 | `exit` sets `pc` to -1 and ends the run with everything else unchanged |
| Silas.CallReturnRoundTrip | silas.py:146-198 | two passes of the loop, a call to a function whose first line is `return` and that `return`, give back the caller's stack and `sp`, with `pc` on the next line and the same locals, now in the frame's copy |
| Silas.Interpreter.constructor | silas.py:37-47 | the globals start with an empty stack, `sp == 0`, `pc == 0` and `lcl` the one, empty, dictionary |
| Silas.Interpreter.Push | silas.py:56-74 | updates the globals exactly as `AfterPush` describes |
| Silas.Interpreter.Pop | silas.py:76-95 | strips the key, then updates the stack and writes the current dictionary in place, raising exactly as `AfterPop` describes |
| Silas.Interpreter.Dup | silas.py:97-105 | updates the globals and raises exactly as `AfterDup` describes |
| Silas.Interpreter.Goto | silas.py:107-112 | updates the globals and raises exactly as `AfterGoto` describes |
| Silas.Interpreter.IfGoto | silas.py:114-127 | updates the globals and raises exactly as `AfterIfGoto` describes |
| Silas.Interpreter.Return | silas.py:192-198 | updates the globals and raises exactly as `AfterReturn` describes: `lcl` becomes the frame's own dictionary |
| Silas.Interpreter.Call | silas.py:146-189 | adds the copy of the locals (and, for a user function, the empty dictionary) to the store and updates the globals and raises exactly as `AfterCall` describes |
| Silas.Interpreter.Step | silas.py:275-320 | one pass of the dispatcher loop, including `print_stack`'s `IndexError` on an empty stack, is exactly `AfterStep` |
| Silas.Interpreter.Run | silas.py:275-320 | the dispatcher loop, bounded by `fuel` passes, ends as `AfterRun` says and in its state |
| Vm.CleanFacts | vm.py:197 | every line after the filter is non-blank and starts with no whitespace; the filter never adds lines |
| Vm.SplittableIff | vm.py:211-212 | the program survives preprocessing iff no line is a `label` line without a space |
| Vm.UnsplittableAt | vm.py:211-212 | one `label` line without a space anywhere makes preprocessing fail |
| Vm.Load | vm.py:197-224 | returns no program iff some cleaned line is a `label` line without a space (`IndexError`); otherwise the kept lines in order and the symbol table for `label` and `function` directives |
| Vm.LabelLine | vm.py:211-215 | any word starting with `label` followed by a space names the stripped rest of the line; with no space it cannot be split |
| Vm.FunctionLine | vm.py:216-222 | `function name` names the stripped text from index 9 on |
| Vm.DirectiveIff | vm.py:211-222 | a line is a directive iff it starts with `label` and has a space, or starts with `function`; the name is the stripped text after the first space, or from index 9 on |
| Vm.IfGotoFacts | vm.py:89-98 | `if_goto` pops exactly one element (empty stack: `IndexError`); a frame raises `TypeError`, a text shorter than 2 `IndexError`; it jumps iff the text's second character is not whitespace, otherwise falls through |
| Vm.JumpIffSecondNotSpace | vm.py:94 | a one-character string strips to nothing iff it is whitespace |
| Vm.IfGotoJumpsOnBoth | vm.py:94-96 | `"True\n"` and `"False\n"` both jump |
| Vm.CallCount | vm.py:123-133 | a count other than `*` or digits is exactly the `AssertionError` case; `n > 0` takes the top `n`; 0 takes the whole stack; `*` takes everything above the frame, or the whole stack when nothing is above it |
| Vm.CallZeroTakesWholeStack | vm.py:130-137 | `call f 0` passes every entry, base included, and a user function's frame ends up at the bottom |
| Vm.DecodePush | vm.py:244-269 | `push text` pushes the raw text, newline included; `> text` is no push in this dialect but a call of a function named `>` |
| Vm.DecodeCall | vm.py:259-261 | `call f n` calls `f` with count text `n`; `call f` with no space after the name raises `ValueError` |
| Vm.DecodePop | vm.py:247-252 | `pop x n` passes the count as text; `pop x` uses the count 1 |
| Vm.DecodeOther | vm.py:267-269 | a first word that is no keyword is called as a function with the rest of the line as its count |
| Vm.PopThenPushMisses | vm.py:41-69 | `pop x` stores under `x` with its newline, and a following `push x` does not find that local and pushes the text itself |
| Vm.NonJumpingAdvance | vm.py:244-271 | push, pop, dup, a primitive call and an `if-goto` whose second character is whitespace move `pc` on by exactly one when they complete, leave it when they raise, and never halt |
| Vm.ExitStops | vm.py:264-266 | `exit` sets `pc` to -1 and ends the run with everything else unchanged |
| Vm.CallReturnRoundTrip | vm.py:117-168 | two passes of the loop, a call to a function whose first line is `return` and that `return`, give back the caller's stack and `sp`, with `pc` on the next line and the same locals, now in the frame's copy |
| Vm.TopLevelReturnFails | vm.py:160-166 | `return` at top level removes the base text and raises `ValueError` |
| Vm.PopStarAtTop | vm.py:61-69 | `pop x *` at top level keeps the base; with nothing above the base it takes the whole stack, base included |
| Vm.Interpreter.constructor | vm.py:13-23 | the globals start with the base text alone on the stack, `sp == 0`, `pc == 0` and `lcl` the one, empty, dictionary |
| Vm.Interpreter.Push | vm.py:32-50 | updates the globals exactly as `AfterPush` describes |
| Vm.Interpreter.Pop | vm.py:52-70 | keeps the key as written, then updates the stack and writes the current dictionary in place, raising exactly as `AfterPop` describes |
| Vm.Interpreter.Dup | vm.py:72-80 | updates the globals and raises exactly as `AfterDup` describes |
| Vm.Interpreter.Goto | vm.py:82-87 | updates the globals and raises exactly as `AfterGoto` describes |
| Vm.Interpreter.IfGoto | vm.py:89-98 | updates the globals and raises exactly as `AfterIfGoto` describes |
| Vm.Interpreter.Return | vm.py:160-166 | updates the globals and raises exactly as `AfterReturn` describes: `lcl` becomes the frame's own dictionary |
| Vm.Interpreter.Call | vm.py:117-157 | adds the copy of the locals (and, for a user function, the empty dictionary) to the store and updates the globals and raises exactly as `AfterCall` describes |
| Vm.Interpreter.Step | vm.py:236-271 | one pass of the dispatcher loop is exactly `AfterStep` |
| Vm.Interpreter.Run | vm.py:236-273 | the dispatcher loop, bounded by `fuel` passes, ends as `AfterRun` says and in its state |

## Left out

- `load_functions` and the primitives of `functions.py` are not part of this model. A primitive is any function `Prims.apply` from a name and an argument list to a value. This covers both `primitives[fct](arg)` in silas.py and `primitives[fct](*arg)` in vm.py. Exceptions raised inside a primitive are not modelled. The model fixes one result per name and argument list, while the source's primitives sample a language model and need not give the same answer twice.
- `print_stack`, the `debug` prompts (`input`/`print`) and the final `input` are console I/O and are left out. The one effect they have on the run is kept: silas.py's `print_stack` raises `IndexError` on an empty stack.
- Command-line parsing, reading the program file and the `-o` output branch are left out. `Load` takes the file's lines as its argument.
- The unused globals `heap`, `static` and `slobmys` are not modelled.
- Runtime.AfterRun: the `while pc >= 0` loop is bounded by a `fuel` count of passes, and a run still going when it runs out ends as `OutOfFuel`. A program that loops forever is therefore not described as non-terminating.
- Runtime.AfterReturn: when the element at `sp` is a four-character text, unpacking it succeeds and the next `pc += 1` raises `TypeError`. The model keeps `sp`, `pc` and `lcl` as they were instead of holding characters in them.
- Runtime.AfterPush: the branch of `push` for a local that holds a single object is unreachable, since only `pop` writes locals and it always stores a list, so it is not modelled.
- `lcl.copy()` is shallow: the copy and the original share the lists stored in them. The model stores lists as values, which is the same here because no instruction changes a stored list in place.
- Runtime.Dict: a frame naming a dictionary the store does not hold reads as empty locals. The interpreters never build such a frame; only a primitive result made up by `Prims.apply` could carry one.
- Silas.AfterStep, Vm.AfterStep: each dispatcher pass splits `lines[pc]` afresh. The model decodes every line once (`DecodeAll`), which gives the same instruction on every pass.
- Py.IsDigit: `str.isdigit` also accepts non-ASCII digits; the model accepts only `0`-`9`. `int` of such digits is not modelled.
- Values returned by primitives are stack entries (text or frames). Other Python objects, such as numbers, and their string forms are not modelled.
