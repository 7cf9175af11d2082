/**
 * Splitting one line of a SystemTap `thread_indent` trace into the three
 * fields of a profile record: the indentation offset, the function name and
 * the timestamp (run.py, `_parse_record`).
 */
module TraceRecord {
  import opened Wrappers

  /** One trace line, parsed: the `record` namedtuple (offset, func, timestamp). */
  datatype Record = Record(offset: nat, func: string, timestamp: string)

  /** The three parts `str.partition` returns: before, separator, after. */
  datatype Parts = Parts(before: string, sep: string, after: string)

  /** The characters Python's `str.isspace` accepts, which `str.split()` separates on. */
  predicate IsWhitespace(c: char) {
    ('\t' <= c <= '\r') || ('\U{1C}' <= c <= ' ') || c == '\U{85}' || c == '\U{A0}' ||
    c == '\U{1680}' || ('\U{2000}' <= c <= '\U{200A}') || c == '\U{2028}' || c == '\U{2029}' ||
    c == '\U{202F}' || c == '\U{205F}' || c == '\U{3000}'
  }

  predicate IsBlank(s: string) {
    forall i :: 0 <= i < |s| ==> IsWhitespace(s[i])
  }

  predicate HasNoWhitespace(s: string) {
    forall i :: 0 <= i < |s| ==> !IsWhitespace(s[i])
  }

  function Spaces(n: nat): (s: string)
    ensures |s| == n && forall i :: 0 <= i < n ==> s[i] == ' '
  {
    if n == 0 then "" else Spaces(n - 1) + " "
  }

  /** `line.partition(':')`: split at the first colon, if there is one. */
  function Partition(line: string): (p: Parts)
    ensures p.before + p.sep + p.after == line
    ensures ':' !in p.before
    ensures p.sep == ":" || (p.sep == "" && p.after == "")
  {
    if line == [] then Parts("", "", "")
    else if line[0] == ':' then Parts("", ":", line[1..])
    else
      var rest := Partition(line[1..]);
      Parts([line[0]] + rest.before, rest.sep, rest.after)
  }

  /** The number of whitespace characters `s` starts with. */
  function LeadingWhitespace(s: string): (n: nat)
    ensures n <= |s|
    ensures forall i :: 0 <= i < n ==> IsWhitespace(s[i])
    ensures n < |s| ==> !IsWhitespace(s[n])
  {
    if s != [] && IsWhitespace(s[0]) then 1 + LeadingWhitespace(s[1..]) else 0
  }

  /** The number of non-whitespace characters `s` starts with. */
  function TokenLength(s: string): (n: nat)
    ensures n <= |s|
    ensures forall i :: 0 <= i < n ==> !IsWhitespace(s[i])
    ensures n < |s| ==> IsWhitespace(s[n])
  {
    if s != [] && !IsWhitespace(s[0]) then 1 + TokenLength(s[1..]) else 0
  }

  /** The number of ' ' characters `s` starts with. */
  function LeadingSpaces(s: string): (n: nat)
    ensures n <= |s|
    ensures forall i :: 0 <= i < n ==> s[i] == ' '
    ensures n < |s| ==> s[n] != ' '
  {
    if s != [] && s[0] == ' ' then 1 + LeadingSpaces(s[1..]) else 0
  }

  /** `s.split()[0]`: the first whitespace-delimited token, None when there is none (IndexError). */
  function FirstToken(s: string): (r: Option<string>)
    ensures r.None? <==> IsBlank(s)
    ensures r.Some? ==>
      var k := LeadingWhitespace(s);
      |r.value| > 0 && HasNoWhitespace(r.value) &&
      k + |r.value| <= |s| && s[k..k + |r.value|] == r.value &&
      (k + |r.value| == |s| || IsWhitespace(s[k + |r.value|]))
  {
    var k := LeadingWhitespace(s);
    if k == |s| then None
    else
      var n := TokenLength(s[k..]);
      Some(s[k..k + n])
  }

  /** `s.rstrip('\n')`: drop every trailing newline. */
  function StripTrailingNewlines(s: string): (r: string)
    ensures r <= s
    ensures forall i :: |r| <= i < |s| ==> s[i] == '\n'
    ensures r == [] || r[|r| - 1] != '\n'
  {
    if s != [] && s[|s| - 1] == '\n' then StripTrailingNewlines(s[..|s| - 1]) else s
  }

  /**
   * `_parse_record(line)`. The timestamp is the first token before the first
   * colon; after the colon, trailing newlines are dropped, and the leading
   * spaces removed from what remains are counted as the offset. None stands
   * for the IndexError raised when the part before the first colon is blank,
   * or the whole line is blank if it has no colon.
   */
  function ParseRecord(line: string): (r: Option<Record>)
    ensures r.None? <==> IsBlank(Partition(line).before)
    ensures r.Some? ==>
      Spaces(r.value.offset) + r.value.func == StripTrailingNewlines(Partition(line).after)
    ensures r.Some? ==> r.value.func == [] || r.value.func[0] != ' '
    ensures r.Some? ==> FirstToken(Partition(line).before) == Some(r.value.timestamp)
  {
    var parts := Partition(line);
    match FirstToken(parts.before)
    case None => None
    case Some(time) =>
      var right := StripTrailingNewlines(parts.after);
      var offset := LeadingSpaces(right);
      IndentSplit(right);
      Some(Record(offset, right[offset..], time))
  }

  /** Cutting the leading spaces off `s` and putting them back gives `s`. */
  lemma IndentSplit(s: string)
    ensures Spaces(LeadingSpaces(s)) + s[LeadingSpaces(s)..] == s
  {
    var n := LeadingSpaces(s);
    assert Spaces(n) == s[..n];
    assert s == s[..n] + s[n..];
  }

  /** The width `thread_indent` right-aligns the timestamp in (its format "%6d %s:%-*s"). */
  const TimestampWidth: nat := 6

  /** The blanks `%6d` puts before a timestamp of this many digits. */
  function Padding(timestamp: string): nat {
    if |timestamp| < TimestampWidth then TimestampWidth - |timestamp| else 0
  }

  /**
   * The line the tracer writes for a record: the `thread_indent` prefix
   * (the timestamp right-aligned in six columns, a blank, `desc` — the
   * "<process>(<tid>)" part — a colon and the indentation), then the
   * function name on a call line, then a newline (the two `printf` formats
   * of the generated probes, run.py:64 and run.py:66).
   */
  function FormatLine(desc: string, rec: Record): string {
    Spaces(Padding(rec.timestamp)) + rec.timestamp + " " + desc + ":" + Spaces(rec.offset) + rec.func + "\n"
  }

  /** What FormatLine needs for its line to be read back unchanged. */
  predicate Printable(desc: string, rec: Record) {
    rec.timestamp != [] && HasNoWhitespace(rec.timestamp) && ':' !in rec.timestamp &&
    ':' !in desc &&
    (rec.func == [] || (rec.func[0] != ' ' && rec.func[|rec.func| - 1] != '\n'))
  }

  /** Parsing a line written for a printable record gives the record back. */
  lemma ParseFormatted(desc: string, rec: Record)
    requires Printable(desc, rec)
    ensures ParseRecord(FormatLine(desc, rec)) == Some(rec)
  {
    var pad := Spaces(Padding(rec.timestamp));
    var head := pad + rec.timestamp + " " + desc;
    var tail := Spaces(rec.offset) + rec.func + "\n";
    assert FormatLine(desc, rec) == head + ":" + tail;
    assert ':' !in head by {
      assert ':' !in pad;
    }
    PartitionAtFirstColon(head, tail);
    TimestampToken(Padding(rec.timestamp), rec.timestamp, desc);
    IndentedName(rec.offset, rec.func);
  }

  /** The first token of "<blanks><timestamp> <desc>" is the timestamp. */
  lemma TimestampToken(pad: nat, timestamp: string, desc: string)
    requires timestamp != [] && HasNoWhitespace(timestamp)
    ensures FirstToken(Spaces(pad) + timestamp + " " + desc) == Some(timestamp)
  {
    var head := Spaces(pad) + timestamp + " " + desc;
    var n := |timestamp|;
    forall i | 0 <= i < pad
      ensures IsWhitespace(head[i])
    {
      assert head[i] == ' ';
    }
    forall i | pad <= i < pad + n
      ensures !IsWhitespace(head[i])
    {
      assert head[i] == timestamp[i - pad];
    }
    assert head[pad + n] == ' ';
    TokenAt(head, pad, n);
    assert head[pad..pad + n] == timestamp;
  }

  /** A first token is pinned down by the whitespace before it and the whitespace (or end) after it. */
  lemma TokenAt(s: string, k: nat, n: nat)
    requires 0 < n && k + n <= |s|
    requires forall i :: 0 <= i < k ==> IsWhitespace(s[i])
    requires forall i :: k <= i < k + n ==> !IsWhitespace(s[i])
    requires k + n < |s| ==> IsWhitespace(s[k + n])
    ensures FirstToken(s) == Some(s[k..k + n])
  {
    LeadingWhitespaceExact(s, k);
    TokenLengthExact(s[k..], n);
  }

  /**
   * A process part with a colon in it, "<a>:<b>", moves the split: the
   * parsed record's name starts with `b`, at offset 0, whatever was
   * printed, so an exit line (no function name) comes back with a name.
   */
  lemma ColonInProcessName(a: string, b: string, rec: Record)
    requires Printable(a, rec) && b != [] && b[0] != ' '
    ensures ParseRecord(FormatLine(a + ":" + b, rec)) ==
      Some(Record(0, b + ":" + Spaces(rec.offset) + rec.func, rec.timestamp))
  {
    var pad := Spaces(Padding(rec.timestamp));
    var head := pad + rec.timestamp + " " + a;
    var func := b + ":" + Spaces(rec.offset) + rec.func;
    var tail := func + "\n";
    assert FormatLine(a + ":" + b, rec) == head + ":" + tail;
    assert ':' !in head by {
      assert ':' !in pad;
    }
    PartitionAtFirstColon(head, tail);
    TimestampToken(Padding(rec.timestamp), rec.timestamp, a);
    assert func[0] == b[0];
    if rec.func == [] {
      if rec.offset == 0 {
        assert func[|func| - 1] == ':';
      } else {
        assert func[|func| - 1] == Spaces(rec.offset)[rec.offset - 1];
      }
    } else {
      assert func[|func| - 1] == rec.func[|rec.func| - 1];
    }
    IndentedName(0, func);
    assert Spaces(0) + func == func;
  }

  /** After the colon, the indentation and the name come back as offset and name. */
  lemma IndentedName(offset: nat, func: string)
    requires func == [] || (func[0] != ' ' && func[|func| - 1] != '\n')
    ensures var right := StripTrailingNewlines(Spaces(offset) + func + "\n");
      right == Spaces(offset) + func && LeadingSpaces(right) == offset &&
      right[offset..] == func
  {
    var body := Spaces(offset) + func;
    var tail := body + "\n";
    assert tail[|tail| - 1] == '\n' && tail[..|tail| - 1] == body;
    assert StripTrailingNewlines(tail) == StripTrailingNewlines(body);
    if func == [] {
      assert body == Spaces(offset);
      assert body == [] || body[|body| - 1] == ' ';
    } else {
      assert body[|body| - 1] == func[|func| - 1];
    }
    assert StripTrailingNewlines(body) == body;
    LeadingSpacesExact(body, offset);
    assert body[offset..] == func;
  }

  /** Partition finds the first colon: a prefix without one is kept whole. */
  lemma {:induction false} PartitionAtFirstColon(head: string, tail: string)
    requires ':' !in head
    ensures Partition(head + ":" + tail) == Parts(head, ":", tail)
  {
    if head != [] {
      assert (head + ":" + tail)[1..] == head[1..] + ":" + tail;
      PartitionAtFirstColon(head[1..], tail);
    } else {
      assert (head + ":" + tail)[1..] == tail;
    }
  }

  lemma TokenLengthExact(s: string, n: nat)
    requires n <= |s|
    requires forall i :: 0 <= i < n ==> !IsWhitespace(s[i])
    requires n < |s| ==> IsWhitespace(s[n])
    ensures TokenLength(s) == n
  {
  }

  lemma LeadingWhitespaceExact(s: string, n: nat)
    requires n <= |s|
    requires forall i :: 0 <= i < n ==> IsWhitespace(s[i])
    requires n < |s| ==> !IsWhitespace(s[n])
    ensures LeadingWhitespace(s) == n
  {
  }

  lemma LeadingSpacesExact(s: string, n: nat)
    requires n <= |s|
    requires forall i :: 0 <= i < n ==> s[i] == ' '
    requires n < |s| ==> s[n] != ' '
    ensures LeadingSpaces(s) == n
  {
  }
}
