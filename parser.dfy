/**
 * Rebuilding timed call/return pairs from a SystemTap trace (run.py,
 * `parse_output`): one forward pass over the lines with a call stack.
 */
module TraceParser {
  import opened Wrappers
  import opened Decimal
  import opened TraceRecord

  /** The fixed `type` tag of every resource record. */
  const Mixed := "mixed"

  /** The fixed `subtype` tag of every resource record. */
  const TimeDelta := "time delta"

  /** One resource record; `kind` holds the record's "type" entry. */
  datatype Resource = Resource(amount: int, uid: string, kind: string, subtype: string, sequence: nat)

  /** Why a pass stops: the source raises an exception in each case. */
  datatype ParseError =
    | MissingTimestamp  // `split()[0]` when the part before the first colon, or the whole line without one, is blank (IndexError)
    | ExitWithoutEntry  // an exit line while the stack is empty: `trace_stack[-1]` (IndexError)
    | InvalidTimestamp  // `int()` of a timestamp that is not a decimal integer (ValueError)

  /** The pass's variables: the call stack (its top is the last element), the records and the counter. */
  datatype State = State(stack: seq<Record>, resources: seq<Resource>, sequence: nat)

  const Initial := State([], [], 0)

  predicate IsEntry(rec: Record) {
    rec.func != []
  }

  /** One loop iteration on a parsed line. */
  function Step(st: State, rec: Record): Result<State, ParseError> {
    if IsEntry(rec) then
      Success(st.(stack := st.stack + [rec]))
    else if st.stack == [] then
      Failure(ExitWithoutEntry)
    else
      var top := st.stack[|st.stack| - 1];
      if rec.offset == top.offset - 1 then
        var exitTime := ParseInt(rec.timestamp);
        var entryTime := ParseInt(top.timestamp);
        if exitTime.None? || entryTime.None? then
          Failure(InvalidTimestamp)
        else
          var res := Resource(exitTime.value - entryTime.value, top.func, Mixed, TimeDelta, st.sequence);
          Success(State(st.stack[..|st.stack| - 1], st.resources + [res], st.sequence + 1))
      else
        Success(st)
  }

  /** `_parse_record` applied to every line; None marks a line it fails on. */
  function ParseLines(lines: seq<string>): (parsed: seq<Option<Record>>)
    ensures |parsed| == |lines|
    decreases |lines|
  {
    if lines == [] then [] else [ParseRecord(lines[0])] + ParseLines(lines[1..])
  }

  lemma {:induction false} ParseLinesAt(lines: seq<string>, k: nat)
    requires k < |lines|
    ensures ParseLines(lines)[k] == ParseRecord(lines[k])
    decreases |lines|
  {
    if k > 0 {
      ParseLinesAt(lines[1..], k - 1);
    }
  }

  /** The loop from state `st` over the parsed lines, as a fold; it stops at the first failure. */
  function Run(st: State, parsed: seq<Option<Record>>): Result<State, ParseError>
    decreases |parsed|
  {
    if parsed == [] then Success(st)
    else
      match parsed[0]
      case None => Failure(MissingTimestamp)
      case Some(rec) =>
        match Step(st, rec)
        case Failure(e) => Failure(e)
        case Success(next) => Run(next, parsed[1..])
  }

  /** What `parse_output` returns for a trace: the records of a completed pass. */
  function Outcome(lines: seq<string>): Result<seq<Resource>, ParseError> {
    match Run(Initial, ParseLines(lines))
    case Success(st) => Success(st.resources)
    case Failure(e) => Failure(e)
  }

  /** Continue a pass that has not failed. */
  function Then(r: Result<State, ParseError>, parsed: seq<Option<Record>>): Result<State, ParseError> {
    match r
    case Success(st) => Run(st, parsed)
    case Failure(e) => Failure(e)
  }

  /** The number of lines that parse as entries (a non-empty function name). */
  function EntryCount(parsed: seq<Option<Record>>): nat
    decreases |parsed|
  {
    if parsed == [] then 0
    else EntryCount(parsed[1..]) + (if parsed[0].Some? && IsEntry(parsed[0].value) then 1 else 0)
  }

  /** Records are numbered 0, 1, ... in order, the counter is the next number, and every record carries an entry's name and the fixed tags. */
  predicate Numbered(st: State) {
    st.sequence == |st.resources| &&
    forall k :: 0 <= k < |st.resources| ==>
      st.resources[k].sequence == k && st.resources[k].uid != [] &&
      st.resources[k].kind == Mixed && st.resources[k].subtype == TimeDelta
  }

  /** Every frame on the stack is an entry record. */
  predicate EntriesOnly(stack: seq<Record>) {
    forall k :: 0 <= k < |stack| ==> IsEntry(stack[k])
  }

  /**
   * The body of the `parse_output` loop for one parsed line (run.py:98-111):
   * push an entry; match an exit against the top frame, popping it and
   * appending a record; ignore an exit at any other offset.
   */
  method ProcessRecord(stack: seq<Record>, resources: seq<Resource>, sequence: nat, record: Record)
    returns (r: Result<State, ParseError>)
    ensures r == Step(State(stack, resources, sequence), record)
  {
    var traceStack := stack;
    var out := resources;
    var counter := sequence;
    if record.func != [] {
      traceStack := traceStack + [record];
    } else if traceStack == [] {
      return Failure(ExitWithoutEntry);
    } else if record.offset == traceStack[|traceStack| - 1].offset - 1 {
      var matching := traceStack[|traceStack| - 1];
      traceStack := traceStack[..|traceStack| - 1];
      var exitTime := ParseInt(record.timestamp);
      var entryTime := ParseInt(matching.timestamp);
      if exitTime.None? || entryTime.None? {
        return Failure(InvalidTimestamp);
      }
      out := out + [Resource(exitTime.value - entryTime.value, matching.func, Mixed, TimeDelta, counter)];
      counter := counter + 1;
    }
    return Success(State(traceStack, out, counter));
  }

  /** `parse_output(lines)`: one pass over the lines with the stack, the record list and the counter. */
  method ParseOutput(lines: seq<string>) returns (r: Result<seq<Resource>, ParseError>)
    ensures r == Outcome(lines)
    ensures r.Success? ==> |r.value| <= EntryCount(ParseLines(lines))
    ensures r.Success? ==> forall k :: 0 <= k < |r.value| ==>
      r.value[k].sequence == k && r.value[k].uid != [] &&
      r.value[k].kind == Mixed && r.value[k].subtype == TimeDelta
  {
    var traceStack: seq<Record> := [];
    var resources: seq<Resource> := [];
    var sequence: nat := 0;
    var i := 0;
    while i < |lines|
      invariant i <= |lines|
      invariant Run(Initial, ParseLines(lines)) == Run(State(traceStack, resources, sequence), ParseLines(lines[i..]))
    {
      ghost var before := State(traceStack, resources, sequence);
      RunFrom(before, lines, i);
      var record := ParseRecord(lines[i]);
      if record.None? {
        r := Failure(MissingTimestamp);
        return;
      }
      var next := ProcessRecord(traceStack, resources, sequence, record.value);
      if next.Failure? {
        r := Failure(next.error);
        return;
      }
      Advance(before, record.value, next.value, lines, i);
      traceStack, resources, sequence := next.value.stack, next.value.resources, next.value.sequence;
      i := i + 1;
    }
    assert lines[i..] == [];
    r := Success(resources);
    PassFacts(lines);
  }

  /** The facts about a complete pass that `ParseOutput` promises. */
  lemma PassFacts(lines: seq<string>)
    ensures Outcome(lines).Success? ==> |Outcome(lines).value| <= EntryCount(ParseLines(lines))
    ensures Outcome(lines).Success? ==> Numbered(State([], Outcome(lines).value, |Outcome(lines).value|))
  {
    if Run(Initial, ParseLines(lines)).Success? {
      RunCounts(Initial, ParseLines(lines));
      RunKeepsNumbering(Initial, ParseLines(lines));
    }
  }

  lemma {:induction false} RunAppend(st: State, a: seq<Option<Record>>, b: seq<Option<Record>>)
    ensures Run(st, a + b) == Then(Run(st, a), b)
    decreases |a|
  {
    if a == [] {
      assert a + b == b;
    } else {
      assert (a + b)[0] == a[0] && (a + b)[1..] == a[1..] + b;
      match a[0]
      case None =>
      case Some(rec) =>
        match Step(st, rec)
        case Failure(e) =>
        case Success(next) => RunAppend(next, a[1..], b);
    }
  }

  /** One line of the pass: its parse, then its step, then the rest. */
  lemma RunCons(st: State, rec: Option<Record>, rest: seq<Option<Record>>)
    ensures Run(st, [rec] + rest) ==
      if rec.None? then Failure(MissingTimestamp) else Then(Step(st, rec.value), rest)
  {
    assert ([rec] + rest)[0] == rec && ([rec] + rest)[1..] == rest;
  }

  /** The pass from line `i` on: line `i` is parsed and stepped, then come the lines after it. */
  lemma RunFrom(st: State, lines: seq<string>, i: nat)
    requires i < |lines|
    ensures Run(st, ParseLines(lines[i..])) ==
      if ParseRecord(lines[i]).None? then Failure(MissingTimestamp)
      else Then(Step(st, ParseRecord(lines[i]).value), ParseLines(lines[i + 1..]))
  {
    assert lines[i..][0] == lines[i] && lines[i..][1..] == lines[i + 1..];
    assert ParseLines(lines[i..]) == [ParseRecord(lines[i])] + ParseLines(lines[i + 1..]);
    RunCons(st, ParseRecord(lines[i]), ParseLines(lines[i + 1..]));
  }

  /** A line whose step succeeds hands the rest of the pass its new state. */
  lemma Advance(st: State, rec: Record, next: State, lines: seq<string>, i: nat)
    requires i < |lines| && ParseRecord(lines[i]) == Some(rec) && Step(st, rec) == Success(next)
    ensures Run(st, ParseLines(lines[i..])) == Run(next, ParseLines(lines[i + 1..]))
  {
    RunFrom(st, lines, i);
  }

  /** An entry line pushes exactly its record; the records and the counter are unchanged (run.py:98-99). */
  lemma EntryLine(st: State, rec: Record, rest: seq<Option<Record>>)
    requires IsEntry(rec)
    ensures Run(st, [Some(rec)] + rest) == Run(State(st.stack + [rec], st.resources, st.sequence), rest)
  {
    RunCons(st, Some(rec), rest);
  }

  /**
   * An exit line one column left of the top frame pops that frame and
   * appends one record: the time difference, the entry's name, the fixed
   * tags and the current counter, which then goes up by one (run.py:100-108).
   */
  lemma MatchedExitLine(st: State, rec: Record, rest: seq<Option<Record>>, exitTime: int, entryTime: int)
    requires !IsEntry(rec) && st.stack != [] && rec.offset == st.stack[|st.stack| - 1].offset - 1
    requires ParseInt(rec.timestamp) == Some(exitTime)
    requires ParseInt(st.stack[|st.stack| - 1].timestamp) == Some(entryTime)
    ensures Run(st, [Some(rec)] + rest) ==
      Run(State(st.stack[..|st.stack| - 1],
                st.resources + [Resource(exitTime - entryTime, st.stack[|st.stack| - 1].func, Mixed, TimeDelta, st.sequence)],
                st.sequence + 1),
          rest)
  {
    RunCons(st, Some(rec), rest);
    MatchedExitStep(st, rec, exitTime, entryTime);
  }

  lemma MatchedExitStep(st: State, rec: Record, exitTime: int, entryTime: int)
    requires !IsEntry(rec) && st.stack != [] && rec.offset == st.stack[|st.stack| - 1].offset - 1
    requires ParseInt(rec.timestamp) == Some(exitTime)
    requires ParseInt(st.stack[|st.stack| - 1].timestamp) == Some(entryTime)
    ensures Step(st, rec) ==
      Success(State(st.stack[..|st.stack| - 1],
                    st.resources + [Resource(exitTime - entryTime, st.stack[|st.stack| - 1].func, Mixed, TimeDelta, st.sequence)],
                    st.sequence + 1))
  {
  }

  /** An exit line at any other offset changes nothing (run.py:109-111). */
  lemma MismatchedExitLine(st: State, rec: Record, rest: seq<Option<Record>>)
    requires !IsEntry(rec) && st.stack != [] && rec.offset != st.stack[|st.stack| - 1].offset - 1
    ensures Run(st, [Some(rec)] + rest) == Run(st, rest)
  {
    RunCons(st, Some(rec), rest);
  }

  /** An exit line met with an empty stack stops the pass with an error, whatever follows (run.py:100). */
  lemma ExitOnEmptyStack(st: State, rec: Record, rest: seq<Option<Record>>)
    requires st.stack == [] && !IsEntry(rec)
    ensures Run(st, [Some(rec)] + rest) == Failure(ExitWithoutEntry)
  {
  }

  /** In particular a trace that starts with an exit line fails rather than yielding records. */
  lemma LeadingExitFails(lines: seq<string>)
    requires lines != [] && ParseRecord(lines[0]).Some? && !IsEntry(ParseRecord(lines[0]).value)
    ensures Outcome(lines) == Failure(ExitWithoutEntry)
  {
    var parsed := ParseLines(lines);
    assert parsed == [parsed[0]] + parsed[1..];
    ExitOnEmptyStack(Initial, ParseRecord(lines[0]).value, parsed[1..]);
  }

  /**
   * Over any completed stretch of the pass, every entry line either is still
   * on the stack or has produced a record: stack growth plus new records
   * equals the entries read; records are only appended, and the counter
   * advances once per record.
   */
  lemma {:induction false} RunCounts(st: State, parsed: seq<Option<Record>>)
    requires Run(st, parsed).Success?
    ensures var out := Run(st, parsed).value;
      |out.stack| + |out.resources| == |st.stack| + |st.resources| + EntryCount(parsed) &&
      st.resources <= out.resources &&
      out.sequence == st.sequence + (|out.resources| - |st.resources|)
    decreases |parsed|
  {
    if parsed != [] {
      var next := Step(st, parsed[0].value).value;
      RunCounts(next, parsed[1..]);
    }
  }

  /** The numbering invariant holds throughout the pass. */
  lemma {:induction false} RunKeepsNumbering(st: State, parsed: seq<Option<Record>>)
    requires Numbered(st) && EntriesOnly(st.stack) && Run(st, parsed).Success?
    ensures Numbered(Run(st, parsed).value)
    decreases |parsed|
  {
    if parsed != [] {
      var rec := parsed[0].value;
      StepKeepsNumbering(st, rec);
      RunKeepsNumbering(Step(st, rec).value, parsed[1..]);
    }
  }

  lemma StepKeepsNumbering(st: State, rec: Record)
    requires Numbered(st) && EntriesOnly(st.stack) && Step(st, rec).Success?
    ensures Numbered(Step(st, rec).value)
    ensures EntriesOnly(Step(st, rec).value.stack)
  {
  }

  /** A trace of entry lines only yields no records: frames still open at the end are dropped. */
  lemma {:induction false} OpenFramesDropped(st: State, parsed: seq<Option<Record>>)
    requires forall k :: 0 <= k < |parsed| ==> parsed[k].Some? && IsEntry(parsed[k].value)
    ensures Run(st, parsed).Success?
    ensures Run(st, parsed).value.resources == st.resources
    ensures |Run(st, parsed).value.stack| == |st.stack| + |parsed|
    decreases |parsed|
  {
    if parsed != [] {
      OpenFramesDropped(st.(stack := st.stack + [parsed[0].value]), parsed[1..]);
    }
  }

  /** An empty trace yields no records, and so does a trace of entries alone. */
  lemma NoExitsNoRecords(lines: seq<string>)
    requires forall k :: 0 <= k < |lines| ==> ParseRecord(lines[k]).Some? && IsEntry(ParseRecord(lines[k]).value)
    ensures Outcome(lines) == Success([])
  {
    forall k | 0 <= k < |lines|
      ensures ParseLines(lines)[k] == ParseRecord(lines[k])
    {
      ParseLinesAt(lines, k);
    }
    OpenFramesDropped(Initial, ParseLines(lines));
  }
}
