/**
 * What a pass makes of a trace in which every call returns in order: the
 * lines the generated probes print for a tree of calls, and the one
 * resource record per call the parser rebuilds from them.
 */
module NestedTrace {
  import opened Wrappers
  import opened Decimal
  import opened TraceRecord
  import opened TraceParser

  /** One invocation of a probed function, with its entry and exit times and the probed calls it made. */
  datatype Call = Call(func: string, enter: nat, exit: nat, callees: seq<Call>)

  /** A name `probefunc()` can print on one line that the line split gives back unchanged. */
  predicate GoodName(name: string) {
    name != [] && name[0] != ' ' && '\n' !in name
  }

  predicate WellNamed(c: Call)
    decreases c
  {
    GoodName(c.func) && forall k :: 0 <= k < |c.callees| ==> WellNamed(c.callees[k])
  }

  /**
   * The trace of a call at indentation `depth`: its entry line at offset
   * `depth`, the lines of its callees one level deeper, and its exit line at
   * offset `depth - 1` (`thread_indent(1)` then `thread_indent(-1)`).
   */
  function CallLines(desc: string, depth: nat, c: Call): seq<string>
    requires depth >= 1
    decreases c
  {
    [FormatLine(desc, Record(depth, c.func, NatToDigits(c.enter)))] +
    CalleeLines(desc, depth + 1, c.callees) +
    [FormatLine(desc, Record(depth - 1, "", NatToDigits(c.exit)))]
  }

  function CalleeLines(desc: string, depth: nat, cs: seq<Call>): seq<string>
    requires depth >= 1
    decreases cs
  {
    if cs == [] then [] else CallLines(desc, depth, cs[0]) + CalleeLines(desc, depth, cs[1..])
  }

  /** The parsed form of those lines: what `_parse_record` gives for each. */
  function CallParsed(depth: nat, c: Call): seq<Option<Record>>
    requires depth >= 1
    decreases c
  {
    [Some(Record(depth, c.func, NatToDigits(c.enter)))] +
    CalleeParsed(depth + 1, c.callees) +
    [Some(Record(depth - 1, "", NatToDigits(c.exit)))]
  }

  function CalleeParsed(depth: nat, cs: seq<Call>): seq<Option<Record>>
    requires depth >= 1
    decreases cs
  {
    if cs == [] then [] else CallParsed(depth, cs[0]) + CalleeParsed(depth, cs[1..])
  }

  /** The number of calls in a tree, and in a sequence of trees. */
  function CallCount(c: Call): nat
    decreases c
  {
    1 + CalleeCount(c.callees)
  }

  function CalleeCount(cs: seq<Call>): nat
    decreases cs
  {
    if cs == [] then 0 else CallCount(cs[0]) + CalleeCount(cs[1..])
  }

  /**
   * The records a call tree should produce, numbered from `first`: those of
   * its callees, in the order they return, then its own, whose amount is
   * its exit time minus its entry time.
   */
  function CallRecords(c: Call, first: nat): seq<Resource>
    decreases c
  {
    CalleeRecords(c.callees, first) +
    [Resource(c.exit - c.enter, c.func, Mixed, TimeDelta, first + CalleeCount(c.callees))]
  }

  function CalleeRecords(cs: seq<Call>, first: nat): seq<Resource>
    decreases cs
  {
    if cs == [] then []
    else CallRecords(cs[0], first) + CalleeRecords(cs[1..], first + CallCount(cs[0]))
  }

  lemma {:induction false} ParseLinesAppend(a: seq<string>, b: seq<string>)
    ensures ParseLines(a + b) == ParseLines(a) + ParseLines(b)
    decreases |a|
  {
    if a != [] {
      assert (a + b)[0] == a[0] && (a + b)[1..] == a[1..] + b;
      ParseLinesAppend(a[1..], b);
    } else {
      assert a + b == b;
    }
  }

  /** A timestamp printed in decimal is read back by the line split and by `int()`. */
  lemma TimestampLine(desc: string, offset: nat, func: string, time: nat)
    requires ':' !in desc
    requires func == [] || GoodName(func)
    ensures ParseLines([FormatLine(desc, Record(offset, func, NatToDigits(time)))]) ==
      [Some(Record(offset, func, NatToDigits(time)))]
  {
    var digits := NatToDigits(time);
    assert HasNoWhitespace(digits) && ':' !in digits by {
      forall k | 0 <= k < |digits|
        ensures !IsWhitespace(digits[k]) && digits[k] != ':'
      {
        assert IsDigit(digits[k]);
      }
    }
    ParseFormatted(desc, Record(offset, func, digits));
  }

  /** Each line of a well-named call tree parses to the record it was printed from. */
  lemma {:induction false} CallLinesParse(desc: string, depth: nat, c: Call)
    requires depth >= 1 && ':' !in desc && WellNamed(c)
    ensures ParseLines(CallLines(desc, depth, c)) == CallParsed(depth, c)
    decreases c, 1
  {
    var entry := [FormatLine(desc, Record(depth, c.func, NatToDigits(c.enter)))];
    var exit := [FormatLine(desc, Record(depth - 1, "", NatToDigits(c.exit)))];
    var inner := CalleeLines(desc, depth + 1, c.callees);
    TimestampLine(desc, depth, c.func, c.enter);
    TimestampLine(desc, depth - 1, "", c.exit);
    CalleeLinesParse(desc, depth + 1, c.callees);
    ParseLinesAppend(entry + inner, exit);
    ParseLinesAppend(entry, inner);
  }

  lemma {:induction false} CalleeLinesParse(desc: string, depth: nat, cs: seq<Call>)
    requires depth >= 1 && ':' !in desc
    requires forall k :: 0 <= k < |cs| ==> WellNamed(cs[k])
    ensures ParseLines(CalleeLines(desc, depth, cs)) == CalleeParsed(depth, cs)
    decreases cs, 0
  {
    if cs != [] {
      CallLinesParse(desc, depth, cs[0]);
      CalleeLinesParse(desc, depth, cs[1..]);
      ParseLinesAppend(CallLines(desc, depth, cs[0]), CalleeLines(desc, depth, cs[1..]));
    }
  }

  /**
   * From any state, the records of a well-named call tree leave the stack as
   * they found it and append exactly the tree's resource records, numbered
   * on from the current counter.
   */
  lemma {:induction false} CallPass(depth: nat, st: State, c: Call)
    requires depth >= 1 && WellNamed(c)
    ensures Run(st, CallParsed(depth, c)) ==
      Success(State(st.stack, st.resources + CallRecords(c, st.sequence), st.sequence + CallCount(c)))
    decreases c, 1
  {
    var entry := Record(depth, c.func, NatToDigits(c.enter));
    var exit := Record(depth - 1, "", NatToDigits(c.exit));
    var inner := CalleeParsed(depth + 1, c.callees);
    RunAppend(st, [Some(entry)] + inner, [Some(exit)]);
    EntryLine(st, entry, inner);
    var pushed := State(st.stack + [entry], st.resources, st.sequence);
    CalleesPass(depth + 1, pushed, c.callees);
    ParseIntRoundTrip(c.enter);
    ParseIntRoundTrip(c.exit);
    CallReturns(depth, st, c, NatToDigits(c.enter), NatToDigits(c.exit));
  }

  /**
   * The exit line of a call, met with the call's frame on top, emits the
   * call's own record; `enterTime` and `exitTime` are the two timestamps as
   * printed.
   */
  lemma CallReturns(depth: nat, st: State, c: Call, enterTime: string, exitTime: string)
    requires depth >= 1
    requires ParseInt(enterTime) == Some(c.enter as int) && ParseInt(exitTime) == Some(c.exit as int)
    ensures var mid := State(st.stack + [Record(depth, c.func, enterTime)],
                             st.resources + CalleeRecords(c.callees, st.sequence),
                             st.sequence + CalleeCount(c.callees));
      Run(mid, [Some(Record(depth - 1, "", exitTime))]) ==
        Success(State(st.stack, st.resources + CallRecords(c, st.sequence), st.sequence + CallCount(c)))
  {
    var entry := Record(depth, c.func, enterTime);
    var exit := Record(depth - 1, "", exitTime);
    var mid := State(st.stack + [entry], st.resources + CalleeRecords(c.callees, st.sequence),
                     st.sequence + CalleeCount(c.callees));
    assert mid.stack[..|mid.stack| - 1] == st.stack;
    var own := Resource(c.exit - c.enter, c.func, Mixed, TimeDelta, mid.sequence);
    MatchedExitStep(mid, exit, c.exit, c.enter);
    RunCons(mid, Some(exit), []);
    assert [Some(exit)] + [] == [Some(exit)];
    assert CallRecords(c, st.sequence) == CalleeRecords(c.callees, st.sequence) + [own];
    assert mid.resources + [own] == st.resources + CallRecords(c, st.sequence);
  }

  lemma {:induction false} CalleesPass(depth: nat, st: State, cs: seq<Call>)
    requires depth >= 1
    requires forall k :: 0 <= k < |cs| ==> WellNamed(cs[k])
    ensures Run(st, CalleeParsed(depth, cs)) ==
      Success(State(st.stack, st.resources + CalleeRecords(cs, st.sequence), st.sequence + CalleeCount(cs)))
    decreases cs, 0
  {
    if cs == [] {
      assert st.resources + [] == st.resources;
    } else {
      RunAppend(st, CallParsed(depth, cs[0]), CalleeParsed(depth, cs[1..]));
      CallPass(depth, st, cs[0]);
      var mid := State(st.stack, st.resources + CallRecords(cs[0], st.sequence), st.sequence + CallCount(cs[0]));
      CalleesPass(depth, mid, cs[1..]);
      assert mid.resources + CalleeRecords(cs[1..], mid.sequence) ==
        st.resources + CalleeRecords(cs, st.sequence);
    }
  }

  /**
   * A trace of properly nested calls starting at indentation 1 yields one
   * record per call, each with its exit time minus its entry time and its
   * function name, numbered 0 to n-1 in the order the calls return.
   */
  lemma WellNestedTrace(desc: string, calls: seq<Call>)
    requires ':' !in desc && '\n' !in desc
    requires forall k :: 0 <= k < |calls| ==> WellNamed(calls[k])
    ensures Outcome(CalleeLines(desc, 1, calls)) == Success(CalleeRecords(calls, 0))
    ensures |CalleeRecords(calls, 0)| == CalleeCount(calls)
  {
    CalleeLinesParse(desc, 1, calls);
    CalleesPass(1, Initial, calls);
    assert [] + CalleeRecords(calls, 0) == CalleeRecords(calls, 0);
    RunCounts(Initial, CalleeParsed(1, calls));
  }

  /**
   * The single-call example: an entry line parsed to offset 3, `foo` and
   * time 100, then an exit line parsed to offset 2 and time 150, give one
   * record of 50 numbered 0.
   */
  lemma SingleCallExample()
    ensures Run(Initial, [Some(Record(3, "foo", "100")), Some(Record(2, "", "150"))]) ==
      Success(State([], [Resource(50, "foo", Mixed, TimeDelta, 0)], 1))
  {
    var c := Call("foo", 100, 150, []);
    assert NatToDigits(10) == "10" && NatToDigits(100) == "100";
    assert NatToDigits(15) == "15" && NatToDigits(150) == "150";
    assert CallParsed(3, c) == [Some(Record(3, "foo", "100")), Some(Record(2, "", "150"))];
    CallPass(3, Initial, c);
    assert CallRecords(c, 0) == [Resource(50, "foo", Mixed, TimeDelta, 0)];
    assert CallCount(c) == 1;
  }

  /**
   * With a colon in the process part, every line of a trace parses as an
   * entry, exit lines included, so the pass emits no record at all.
   */
  lemma ColonInProcessTrace(a: string, b: string, recs: seq<Record>, lines: seq<string>)
    requires b != [] && b[0] != ' '
    requires |lines| == |recs|
    requires forall k :: 0 <= k < |recs| ==> Printable(a, recs[k]) && lines[k] == FormatLine(a + ":" + b, recs[k])
    ensures Outcome(lines) == Success([])
  {
    forall k | 0 <= k < |lines|
      ensures ParseRecord(lines[k]).Some? && IsEntry(ParseRecord(lines[k]).value)
    {
      ColonInProcessName(a, b, recs[k]);
    }
    NoExitsNoRecords(lines);
  }

  /** The entry line of that example, as the tracer prints it, parses to its record. */
  lemma SingleCallEntryLine()
    ensures ParseRecord("   100 a.out(7):   foo\n") == Some(Record(3, "foo", "100"))
  {
    EntryLineText();
    ParseFormatted("a.out(7)", Record(3, "foo", "100"));
  }

  lemma EntryLineText()
    ensures FormatLine("a.out(7)", Record(3, "foo", "100")) == "   100 a.out(7):   foo\n"
  {
    assert Padding("100") == 3;
    assert Spaces(3) == "   ";
  }

  /** The exit line of that example parses to its record. */
  lemma SingleCallExitLine()
    ensures ParseRecord("   150 a.out(7):  \n") == Some(Record(2, "", "150"))
  {
    ExitLineText();
    ParseFormatted("a.out(7)", Record(2, "", "150"));
  }

  lemma ExitLineText()
    ensures FormatLine("a.out(7)", Record(2, "", "150")) == "   150 a.out(7):  \n"
  {
    assert Padding("150") == 3;
    assert Spaces(3) == "   " && Spaces(2) == "  ";
  }
}
