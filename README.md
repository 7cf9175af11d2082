# stap-collector trace parser, modelled in Dafny

This project models `run.py` of stap-collector. That script traces a binary's
functions with SystemTap and turns the trace into profile records. It models:

- the probe script that `build_stap_script` generates: one `.call` probe and one
  `.return` probe per rule, each printing through `thread_indent`;
- the file locations `run_script` derives from the script path, and the `stap` command line it runs;
- `_parse_record`, which splits one trace line into (offset, func, timestamp);
- `parse_output`, which reads the trace in one forward pass with a call stack.
  Each exit line one column left of the top frame is matched with that frame's entry line.
  A match emits a resource record `{amount, uid, type, subtype, sequence}`.

Modules, one concept each:

- `Wrappers` (wrappers.dfy): `Option` and `Result`.
- `Decimal` (decimal.dfy): Python's `int()` on a timestamp token, and decimal printing.
- `TraceRecord` (record.dfy): `_parse_record`, and the line format the probes print.
- `StapScript` (script.dfy): `build_stap_script`, a loop proved against the function `ScriptOf`.
- `TracePaths` (paths.dfy): the path split, the trace path and the `stap` argument vector.
- `TraceParser` (parser.dfy): `parse_output`, a loop over a stack proved against the fold `Run`.
- `NestedTrace` (nested.dfy): what one pass makes of the trace of any tree of properly nested calls.

Python's exceptions are explicit error results of type `ParseError`:

- `MissingTimestamp` is the IndexError of `split()[0]`. It occurs when the part before the first colon is blank, or the whole line is blank if it has no colon.
- `ExitWithoutEntry` is the IndexError of `trace_stack[-1]` for an exit line met while the stack is empty.
- `InvalidTimestamp` is the ValueError of `int()`.

Any of them aborts the whole pass, as the exception does.

How the model reads the trace:

- The trace is a sequence of lines. Each line is what Python's file iterator yields, so it keeps its `'\n'`.
- `str.split()` separates on exactly the characters `str.isspace` accepts.
- `int()` accepts an optional sign followed by ASCII digits.
- The stack's top is the last element of a `seq`, as with `list[-1]`.
- Offsets are integers, so `top.offset - 1` may be -1. An exit at offset 0 therefore never matches a frame at offset 0.
- Lines are printed by `thread_indent`'s format `"%6d %s:%-*s"`: the timestamp right-aligned in six columns, a blank, the process part `<execname>(<tid>)`, a colon and the indentation. `FormatLine` writes that layout, padding included.

One behaviour of the source follows from splitting at the first colon. If the process name contains a colon, the split happens inside it. Every line then parses with a non-empty function name, exit lines included. Every line is pushed as an entry, and the pass returns no records. `ColonInProcessName` and `ColonInProcessTrace` state this.

## Model

| member | source | states |
|---|---|---|
| TraceParser.ParseOutput | run.py:91-112 | The loop's result is exactly the fold `Outcome` of the lines. On success it has at most as many records as there are entry lines. Record k carries sequence k, a non-empty uid, type "mixed" and subtype "time delta". |
| TraceParser.ProcessRecord | run.py:98-111 | One loop iteration: push an entry; pop and emit on a matched exit; fail on an empty stack or an unparsable timestamp; otherwise leave the state alone. It agrees with `Step` on every state and record. |
| TraceParser.EntryLine | run.py:98-99 | An entry line pushes exactly its record. The records and the counter are unchanged. |
| TraceParser.MatchedExitLine | run.py:100-108 | An exit one column left of the top frame pops exactly that frame. It appends one record: exit time minus entry time, the entry's function name, the fixed tags and the current counter. The counter then goes up by one. |
| TraceParser.MatchedExitStep | run.py:100-108 | The same matched exit, for a single step. |
| TraceParser.MismatchedExitLine | run.py:109-111 | An exit at any other offset leaves the stack, the records and the counter unchanged. |
| TraceParser.ExitOnEmptyStack | run.py:100 | An exit line met with an empty stack is an error, whatever follows. |
| TraceParser.LeadingExitFails | run.py:96-100 | A trace whose first line is an exit fails with `ExitWithoutEntry`. |
| TraceParser.RunCounts | run.py:93-112 | At every point of the pass, stack growth plus records emitted equals the entry lines read. Earlier records are never changed. The counter advances once per record. |
| TraceParser.RunKeepsNumbering | run.py:95-108 | Records stay numbered 0..k-1 in the order exits are matched, and the counter stays equal to k. |
| TraceParser.StepKeepsNumbering | run.py:98-108 | One iteration keeps that numbering and keeps only entry records on the stack. |
| TraceParser.OpenFramesDropped | run.py:98-112 | Entry lines alone never fail and emit nothing. Each pushes one frame, and frames still open at the end are not returned. |
| TraceParser.NoExitsNoRecords | run.py:93-112 | An empty trace, or one of entry lines only, yields `[]`. |
| TraceParser.PassFacts | run.py:93-112 | A successful pass has no more records than entry lines, and its records are numbered in order. |
| TraceParser.RunAppend | run.py:96 | The pass over two stretches of lines is the pass over the first, continued over the second. |
| TraceParser.RunCons | run.py:96-97 | The pass over a line then the rest is that line's parse and step, then the rest. |
| TraceParser.RunFrom | run.py:96-97 | The same, for line i of the trace. |
| TraceParser.Advance | run.py:96-111 | A line whose step succeeds hands its new state to the rest of the pass. |
| TraceParser.ParseLines | run.py:96-97 | One parse per line. |
| TraceParser.ParseLinesAt | run.py:97 | Parse k is `_parse_record` of line k. |
| TraceRecord.ParseRecord | run.py:115-121 | The parse fails exactly when the part before the first colon is blank, or the whole line is blank if it has no colon. Otherwise: the timestamp is the first whitespace-delimited token there; `offset` spaces followed by `func` rebuild what follows the colon with its trailing newlines removed; `func` does not start with a space. |
| TraceRecord.Partition | run.py:116 | `before + sep + after` is the line; `before` holds no colon; the separator is ":" or, with no colon anywhere, both it and `after` are empty. |
| TraceRecord.FirstToken | run.py:117 | None exactly when the text is all whitespace. Otherwise the result is a non-empty, whitespace-free token that starts after the leading whitespace and ends at whitespace or at the end of the text. |
| TraceRecord.StripTrailingNewlines | run.py:118 | The result is a prefix of the text. Only '\n' characters were dropped, and the result does not end in '\n'. |
| TraceRecord.LeadingSpaces | run.py:119-120 | The count of leading ' ' characters is maximal: each of them is a space, and the next character is not. |
| TraceRecord.LeadingWhitespace | run.py:117 | The count of leading whitespace characters is maximal. |
| TraceRecord.TokenLength | run.py:117 | The count of leading non-whitespace characters is maximal. |
| TraceRecord.IndentSplit | run.py:119-120 | The offset's spaces followed by `func` rebuild the text they were cut from. |
| TraceRecord.ParseFormatted | run.py:115-121 | A line as the probes print it reads back as the record it was printed from. That line has the timestamp right-aligned in six columns. This needs a non-empty timestamp free of whitespace and colons, and a colon-free process part. A function name must not start with a space or end in a newline. |
| TraceRecord.PartitionAtFirstColon | run.py:116 | A line is partitioned at its first colon. |
| TraceRecord.TimestampToken | run.py:117 | A timestamp after any number of blanks and before a space is the first token. |
| TraceRecord.TokenAt | run.py:117 | The first token is the run of non-whitespace characters that follows only whitespace and ends at whitespace or at the end. |
| TraceRecord.ColonInProcessName | run.py:116-121 | Take a process part `a:b` with a colon, printed for any record. It parses at offset 0 to the name `b:` plus the indentation plus the record's name. That name is never empty, so an exit line comes back looking like an entry. |
| TraceRecord.IndentedName | run.py:118-120 | Spaces, a name and a newline split back into the count of spaces and the name. |
| Decimal.ParseIntAccepts | run.py:103 | `int()` succeeds exactly on an optional sign followed by at least one digit. A leading '-' gives a result of at most 0; otherwise the result is at least 0. |
| Decimal.DigitsValueAccepts | run.py:103 | A digit string has a value exactly when it is non-empty and all digits. |
| Decimal.ParseIntRoundTrip | run.py:103 | `int()` reads back any natural number printed in decimal, with or without a leading '-'. |
| Decimal.DigitsRoundTrip | run.py:103 | Digit reading undoes decimal printing: reading the printed digits of n gives n. |
| Decimal.NatToDigits | run.py:103 | This models the tracer's `%d` printing of a timestamp, the text that `int()` at run.py:103 reads back. It yields a non-empty digit string with no leading zero. |
| StapScript.BuildStapScript | run.py:60-68 | The loop's result is `ScriptOf(binary, rules)`, the probe pairs of the rules in order; it is "" for no rules. |
| StapScript.UnitsInRuleOrder | run.py:62-67 | There are 2n probe units. Unit 2i is rule i's `.call` probe and unit 2i+1 its `.return` probe. |
| StapScript.ScriptIsUnits | run.py:61-68 | The script is exactly those units, concatenated in order. |
| StapScript.ScriptAppend | run.py:62-67 | The script for two rule lists is the first script followed by the second. |
| StapScript.RuleUnitsInOrder | run.py:62-67 | Rule i's `.call` probe and then its `.return` probe sit between the earlier rules' script and the later rules' script. |
| StapScript.JoinAppend | run.py:62-67 | Concatenating pieces over two lists is the first result followed by the second. |
| StapScript.ConcatAppend | run.py:67 | Concatenating two lists of units is the first result followed by the second. |
| TracePaths.SplitScriptPath | run.py:72-78 | The directory and the file name concatenate to the path. The file name has no '/'. The directory is empty or ends in '/', and it is empty when the path has no '/'. |
| TracePaths.LastSlash | run.py:72 | `rfind('/')`: the last slash's index, or None, which stands for -1, when there is none. |
| TracePaths.SplitUnique | run.py:72-78 | Those three properties determine the split. |
| TracePaths.TracePath | run.py:81 | The trace path is the script's directory followed by `stap_record.txt`. For a path without '/', it is the bare name. |
| TracePaths.ScriptPath | run.py:54 | The script path is the binary path followed by `_collect.stp`: its first characters are the binary path, and the rest is exactly the suffix. |
| TracePaths.ScriptBesideBinary | run.py:72-81 | The script is split into the binary's directory and the binary's name plus the suffix. The trace lands in that directory. |
| TracePaths.StapInvocation | run.py:82-83 | The command has seven arguments: `stap -v <file name> -o <trace path> -c <binary>`. The file name is the split's file name. The working directory is the split's directory. Together they rebuild the script path. |
| NestedTrace.WellNestedTrace | run.py:91-112 | Take a trace of properly nested, well-named calls printed from indentation 1, timestamps padded to six columns as the probes print them. Names and the process part hold no newline and the process part no colon, so each printed line is one line of the file. It yields one record per call: exit minus entry time and the function name, numbered 0..n-1 in the order the calls return. |
| NestedTrace.CallPass | run.py:96-108 | The lines of one call tree leave the stack as they found it. They append exactly that tree's records, numbered on from the counter. |
| NestedTrace.CalleesPass | run.py:96-108 | The same for a sequence of sibling call trees. |
| NestedTrace.CallReturns | run.py:100-108 | A call's exit line, met with its frame on top, emits the call's own record after its callees' records. |
| NestedTrace.CallLinesParse | run.py:115-121 | Every line of a printed call tree parses to the record it was printed from. |
| NestedTrace.CalleeLinesParse | run.py:115-121 | The same for a sequence of sibling call trees. |
| NestedTrace.ParseLinesAppend | run.py:96-97 | Parsing two stretches of lines is parsing each. |
| NestedTrace.TimestampLine | run.py:115-121 | A line with a decimal timestamp reads back as its record. |
| NestedTrace.ColonInProcessTrace | run.py:96-121 | A trace printed with a colon in the process part yields no records, whatever calls it records. |
| NestedTrace.SingleCallExample | run.py:96-108 | Entry (offset 3, `foo`, 100) then exit (offset 2, 150) give the single record {50, `foo`, "mixed", "time delta", 0}. |
| NestedTrace.SingleCallEntryLine | run.py:115-121 | `"   100 a.out(7):   foo\n"` parses to offset 3, `foo`, "100". |
| NestedTrace.SingleCallExitLine | run.py:115-121 | `"   150 a.out(7):  \n"` parses to offset 2, no name, "150". |

## Left out

- Argument handling (`process_args`: argparse, `os.path.realpath`, `sys.exit`, run.py:40-48) is library and OS behaviour.
- Running `stap` (`subprocess.check_call`, its exit-code handling and `sys.exit`, run.py:80-87) is an external process. The model states only the argument vector and the working directory. For a script path without '/', the working directory is `''`. Popen's change to that directory raises FileNotFoundError before `stap` starts, and run.py:85 does not catch it. The model does not capture that failure. It cannot arise for the `realpath`-based paths `process_args` produces.
- Writing the `.stp` file (run.py:55-57), opening and iterating the trace file (run.py:92, 96) and `json.dump` to `profile.perf` are I/O. The trace is a sequence of lines instead.
- `main`, `before`, `collect` and `after` only pass a dictionary between the stages, so they are not modelled.
- Decimal.ParseIntAccepts: states `int()` as an optional sign and ASCII digits of any length, through `Decimal.ParseInt`. Python's `int()` also accepts `_` separators, surrounding whitespace and non-ASCII decimal digits. Since Python 3.11 it also raises ValueError for a string of more than 4300 digits. None of these can occur in a `%d` timestamp taken from `split()`.
- TraceParser.ParseOutput: the lines are those Python's text-mode iterator yields. Universal-newline translation of `'\r\n'` and `'\r'` is not modelled.
- TraceParser.ParseOutput: the loop body is the separate method `ProcessRecord`. The record list and the stack are `seq` values reassigned on each iteration, not Python lists mutated in place. No one else holds a reference to them, so no aliasing is lost.
- TraceParser.ParseOutput: the mismatched exit lines it ignores are not counted or reported, as in the source.
- How SystemTap produces the values it prints is not modelled: the timestamps `thread_indent` measures, its per-thread indentation counter, and the names `execname()` and `probefunc()` return. `FormatLine` writes the `"%6d %s:%-*s"` layout, padding included, for given values. The nested-call lemmas take the timestamps and names as given.
