/** The SystemTap probe script generated for a binary and its rules (run.py, `build_stap_script`). */
module StapScript {

  /** The probe that fires on entry to `rule` and prints the indentation and the function name. */
  function CallProbe(binary: string, rule: string): string {
    "probe process(\"" + binary + "\").function(\"" + rule + "\").call\n{\n" +
    "\tprintf(\"%s %s\\n\", thread_indent(1), probefunc())\n}\n"
  }

  /** The probe that fires on return from `rule` and prints only the indentation. */
  function ReturnProbe(binary: string, rule: string): string {
    "probe process(\"" + binary + "\").function(\"" + rule + "\").return\n{\n" +
    "\tprintf(\"%s\\n\", thread_indent(-1))\n}\n"
  }

  /** The two probe units of one rule. */
  function RuleScript(binary: string, rule: string): string {
    CallProbe(binary, rule) + ReturnProbe(binary, rule)
  }

  /** The pieces `piece(x)` of `items`, concatenated in order. */
  function Join(piece: string -> string, items: seq<string>): string
    decreases |items|
  {
    if items == [] then "" else Join(piece, items[..|items| - 1]) + piece(items[|items| - 1])
  }

  /** The probe units of one rule, as a function of the rule. */
  function Probes(binary: string): string -> string {
    rule => RuleScript(binary, rule)
  }

  /** The script for `rules`: what the loop has accumulated after the last rule. */
  function ScriptOf(binary: string, rules: seq<string>): string {
    Join(Probes(binary), rules)
  }

  /** The probe units, a call unit then a return unit per rule. */
  function Units(binary: string, rules: seq<string>): (u: seq<string>)
    decreases |rules|
  {
    if rules == [] then []
    else Units(binary, rules[..|rules| - 1]) +
         [CallProbe(binary, rules[|rules| - 1]), ReturnProbe(binary, rules[|rules| - 1])]
  }

  function Concat(parts: seq<string>): string
    decreases |parts|
  {
    if parts == [] then "" else Concat(parts[..|parts| - 1]) + parts[|parts| - 1]
  }

  /** `build_stap_script(binary, rules)`. */
  method BuildStapScript(binary: string, rules: seq<string>) returns (script: string)
    ensures script == ScriptOf(binary, rules)
    ensures rules == [] ==> script == ""
  {
    script := "";
    for i := 0 to |rules|
      invariant script == ScriptOf(binary, rules[..i])
    {
      var rule := rules[i];
      var entry := "probe process(\"" + binary + "\").function(\"" + rule + "\").call\n{\n";
      entry := entry + "\tprintf(\"%s %s\\n\", thread_indent(1), probefunc())\n}\n";
      var ret := "probe process(\"" + binary + "\").function(\"" + rule + "\").return\n{\n";
      ret := ret + "\tprintf(\"%s\\n\", thread_indent(-1))\n}\n";
      assert entry + ret == RuleScript(binary, rule);
      assert rules[..i + 1][..i] == rules[..i];
      script := script + entry + ret;
    }
    assert rules[..|rules|] == rules;
  }

  lemma {:induction false} ConcatAppend(a: seq<string>, b: seq<string>)
    ensures Concat(a + b) == Concat(a) + Concat(b)
    decreases |b|
  {
    if b == [] {
      assert a + b == a;
    } else {
      var b' := b[..|b| - 1];
      assert (a + b)[..|a + b| - 1] == a + b';
      ConcatAppend(a, b');
    }
  }

  /** There are 2n units; unit 2i is the call probe and unit 2i+1 the return probe of rule i. */
  lemma {:induction false} UnitsInRuleOrder(binary: string, rules: seq<string>)
    ensures |Units(binary, rules)| == 2 * |rules|
    ensures forall i :: 0 <= i < |rules| ==>
      Units(binary, rules)[2 * i] == CallProbe(binary, rules[i]) &&
      Units(binary, rules)[2 * i + 1] == ReturnProbe(binary, rules[i])
    decreases |rules|
  {
    if rules != [] {
      var init := rules[..|rules| - 1];
      UnitsInRuleOrder(binary, init);
      forall i | 0 <= i < |init|
        ensures rules[i] == init[i]
      {
      }
    }
  }

  /** The script is exactly its probe units, concatenated in order: n call units and n return units. */
  lemma {:induction false} ScriptIsUnits(binary: string, rules: seq<string>)
    ensures ScriptOf(binary, rules) == Concat(Units(binary, rules))
    decreases |rules|
  {
    if rules != [] {
      var init := rules[..|rules| - 1];
      var last := rules[|rules| - 1];
      var pair := [CallProbe(binary, last), ReturnProbe(binary, last)];
      ScriptIsUnits(binary, init);
      ConcatAppend(Units(binary, init), pair);
      assert pair[..1] == [CallProbe(binary, last)];
      assert Concat(pair) == Concat(pair[..1]) + ReturnProbe(binary, last);
      assert [CallProbe(binary, last)][..0] == [];
      assert Concat(pair[..1]) == CallProbe(binary, last);
    }
  }

  lemma {:induction false} JoinAppend(piece: string -> string, a: seq<string>, b: seq<string>)
    ensures Join(piece, a + b) == Join(piece, a) + Join(piece, b)
    decreases |b|
  {
    if b == [] {
      assert a + b == a;
    } else {
      var b' := b[..|b| - 1];
      assert (a + b)[..|a + b| - 1] == a + b';
      JoinAppend(piece, a, b');
    }
  }

  /** The script of a concatenated rule list is the concatenation of the two scripts. */
  lemma ScriptAppend(binary: string, rules1: seq<string>, rules2: seq<string>)
    ensures ScriptOf(binary, rules1 + rules2) == ScriptOf(binary, rules1) + ScriptOf(binary, rules2)
  {
    JoinAppend(Probes(binary), rules1, rules2);
  }

  /** Rule `i` contributes its call unit and then its return unit, between the earlier and the later rules. */
  lemma RuleUnitsInOrder(binary: string, rules: seq<string>, i: nat)
    requires i < |rules|
    ensures ScriptOf(binary, rules) ==
      ScriptOf(binary, rules[..i]) + CallProbe(binary, rules[i]) + ReturnProbe(binary, rules[i]) +
      ScriptOf(binary, rules[i + 1..])
  {
    assert rules == rules[..i] + [rules[i]] + rules[i + 1..];
    ScriptAppend(binary, rules[..i] + [rules[i]], rules[i + 1..]);
    ScriptAppend(binary, rules[..i], [rules[i]]);
    assert [rules[i]][..0] == [];
    assert RuleScript(binary, rules[i]) == CallProbe(binary, rules[i]) + ReturnProbe(binary, rules[i]);
  }
}
