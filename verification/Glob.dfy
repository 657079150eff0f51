/** Name patterns (crates/komo-kernel/src/protocol/config.rs:132-176): `*` stands for any text. */
module Glob {
  import opened Text

  /** What a pattern means. */
  predicate Matches(pattern: string, text: string)
    decreases |pattern|
  {
    if pattern == "" then text == ""
    else if pattern[0] == '*' then exists k: nat | k <= |text| :: Matches(pattern[1..], text[k..])
    else text != "" && text[0] == pattern[0] && Matches(pattern[1..], text[1..])
  }

  /** `text` holds all parts in order, each after the one before, and ends with the last. */
  predicate InOrder(parts: seq<string>, text: string)
    requires |parts| > 0
    decreases |parts|
  {
    if |parts| == 1 then |parts[0]| <= |text| && StandsAt(text, |text| - |parts[0]|, parts[0])
    else exists k: nat | k <= |text| :: StandsAt(text, k, parts[0]) && InOrder(parts[1..], text[k + |parts[0]|..])
  }

  // ------------------------------------------------------------ patterns are parts

  lemma {:induction false} LiteralFirst(a: string, q: string, text: string)
    requires '*' !in a
    ensures Matches(a + q, text) <==> StandsAt(text, 0, a) && Matches(q, text[|a|..])
  {
    if a == "" {
      assert a + q == q && text[0..] == text;
    } else {
      assert (a + q)[1..] == a[1..] + q && a[0] in a;
      if StandsAt(text, 0, a) {
        assert text[0] == text[..|a|][0];
      }
      if text != "" && text[0] == a[0] {
        LiteralFirst(a[1..], q, text[1..]);
        assert StandsAt(text, 0, a) <==> StandsAt(text[1..], 0, a[1..]) by {
          if StandsAt(text[1..], 0, a[1..]) {
            assert text[..|a|] == [text[0]] + text[1..][..|a| - 1];
          }
          if StandsAt(text, 0, a) {
            assert text[1..][..|a| - 1] == text[..|a|][1..];
          }
        }
        if StandsAt(text, 0, a) {
          assert text[1..][|a[1..]|..] == text[|a|..];
        }
      }
    }
  }

  lemma OnlyLiteral(a: string, text: string)
    requires '*' !in a
    ensures Matches(a, text) <==> text == a
  {
    LiteralFirst(a, "", text);
    assert a + "" == a;
    if text == a {
      assert text[0..|a|] == a && text[|a|..] == "";
    }
  }

  lemma StarUnfolds(q: string, text: string)
    ensures Matches("*" + q, text) <==> exists k: nat :: k <= |text| && Matches(q, text[k..])
  {
    assert ("*" + q)[1..] == q;
  }

  lemma InOrderUnfolds(parts: seq<string>, text: string)
    requires |parts| > 1
    ensures InOrder(parts, text) <==>
            exists k: nat :: k <= |text| && StandsAt(text, k, parts[0]) && InOrder(parts[1..], text[k + |parts[0]|..])
  {
  }

  /** A star and then the rest of a pattern: the rest's parts in order. */
  lemma {:induction false} StarMeansInOrder(q: string, text: string)
    ensures Matches("*" + q, text) <==> InOrder(Split(q, '*'), text)
    decreases |q|
  {
    hide Matches, InOrder, Split;
    var parts := Split(q, '*');
    StarUnfolds(q, text);
    if |parts| == 1 {
      assert parts == [parts[0]];
      EndsWith(text, parts[0]);
    } else {
      InOrderUnfolds(parts, text);
    }
    if Matches("*" + q, text) {
      var k: nat :| k <= |text| && Matches(q, text[k..]);
      OneStart(q, text, k);
    }
    if InOrder(parts, text) {
      if |parts| == 1 {
        OneStart(q, text, |text| - |parts[0]|);
      } else {
        var k: nat :| k <= |text| && StandsAt(text, k, parts[0]) && InOrder(parts[1..], text[k + |parts[0]|..]);
        OneStart(q, text, k);
      }
    }
  }

  lemma EndsWith(text: string, part: string)
    ensures InOrder([part], text) <==> |part| <= |text| && text[|text| - |part|..] == part
    ensures forall k: nat :: k <= |text| && text[k..] == part ==> k == |text| - |part|
  {
    if |part| <= |text| {
      assert text[|text| - |part|..] == text[|text| - |part|..|text| - |part| + |part|];
    }
  }

  /** Offsets in a part of a text. */
  lemma AtShift(text: string, i: nat, k: nat, part: string)
    requires i <= |text|
    ensures StandsAt(text[i..], k, part) <==> StandsAt(text, i + k, part)
    ensures StandsAt(text, i + k, part) ==> text[i..][k + |part|..] == text[i + k + |part|..]
  {
    if i + k + |part| <= |text| {
      assert text[i..][k..k + |part|] == text[i + k..i + k + |part|];
    }
  }

  lemma {:induction false} OneStart(q: string, text: string, k: nat)
    requires k <= |text|
    ensures var parts := Split(q, '*');
            Matches(q, text[k..]) <==>
            if |parts| == 1 then text[k..] == parts[0]
            else StandsAt(text, k, parts[0]) && InOrder(parts[1..], text[k + |parts[0]|..])
    decreases |q|, 0
  {
    hide Matches, InOrder;
    if '*' in q {
      var i := IndexOf(q, '*');
      var a, rest := q[..i], q[i + 1..];
      assert q == a + ("*" + rest);
      LiteralFirst(a, "*" + rest, text[k..]);
      assert Split(q, '*') == [a] + Split(rest, '*');
      AtShift(text, k, 0, a);
      if StandsAt(text, k, a) {
        StarMeansInOrder(rest, text[k + |a|..]);
      }
    } else {
      OnlyLiteral(q, text[k..]);
    }
  }

  /** Main result about patterns: a pattern with a star is its first part at the beginning, and its other
      parts in order up to the end. */
  lemma PatternIsParts(pattern: string, text: string)
    requires '*' in pattern
    ensures var parts := Split(pattern, '*');
            && |parts| > 1
            && (Matches(pattern, text) <==> StandsAt(text, 0, parts[0]) && InOrder(parts[1..], text[|parts[0]|..]))
  {
    OneStart(pattern, text, 0);
    assert text[0..] == text;
  }

  // ------------------------------------------------------------ the greedy matcher

  /** More text in front never hurts: a match may start later. */
  lemma {:induction false} MoreInFront(parts: seq<string>, text: string, i: nat, j: nat)
    requires |parts| > 0 && i <= j <= |text| && InOrder(parts, text[j..])
    ensures InOrder(parts, text[i..])
  {
    var part := parts[0];
    if |parts| == 1 {
      AtShift(text, j, |text| - j - |part|, part);
      AtShift(text, i, |text| - i - |part|, part);
    } else {
      var k: nat :| k <= |text[j..]| && StandsAt(text[j..], k, part) && InOrder(parts[1..], text[j..][k + |part|..]);
      AtShift(text, j, k, part);
      AtShift(text, i, k + (j - i), part);
    }
  }

  /** The first place where a part occurs. */
  method Find(text: string, part: string) returns (at: Option<nat>)
    ensures at.None? ==> forall k: nat :: !StandsAt(text, k, part)
    ensures at.Some? ==> StandsAt(text, at.value, part) && forall k: nat :: k < at.value ==> !StandsAt(text, k, part)
  {
    var k := 0;
    while k + |part| <= |text|
      invariant forall j: nat :: j < k ==> !StandsAt(text, j, part)
    {
      if text[k..k + |part|] == part { return Some(k); }
      k := k + 1;
    }
    return None;
  }

  /** Taking the first occurrence is as good as taking any. */
  lemma FirstWillDo(parts: seq<string>, text: string, at: nat)
    requires |parts| > 1 && StandsAt(text, at, parts[0]) && forall k: nat :: k < at ==> !StandsAt(text, k, parts[0])
    ensures InOrder(parts, text) <==> InOrder(parts[1..], text[at + |parts[0]|..])
  {
    if InOrder(parts, text) {
      var k: nat :| k <= |text| && StandsAt(text, k, parts[0]) && InOrder(parts[1..], text[k + |parts[0]|..]);
      MoreInFront(parts[1..], text, at + |parts[0]|, k + |parts[0]|);
    }
  }

  /** `glob_matches`: one pass, taking each part at its first occurrence, decides what the pattern means. */
  method GlobMatches(pattern: string, text: string) returns (r: bool)
    ensures r <==> Matches(pattern, text)
  {
    hide Matches, InOrder, Split, StandsAt;
    var parts := Split(pattern, '*');
    if |parts| == 1 {
      OnePart(pattern);
      OnlyLiteral(pattern, text);
      return pattern == text;
    }
    ManyParts(pattern);
    PatternIsParts(pattern, text);
    var first := parts[0];
    Starts(text, first);
    if !StartsWith(text, first) { return false; }
    var rest := text[|first|..];
    ghost var whole := Matches(pattern, text);
    var i := 1;
    while i < |parts| - 1
      invariant 1 <= i <= |parts| - 1
      invariant whole <==> InOrder(parts[i..], rest)
    {
      var at := Find(rest, parts[i]);
      assert parts[i..][0] == parts[i];
      if at.None? {
        InOrderUnfolds(parts[i..], rest);
        return false;
      }
      AtFits(rest, at.value, parts[i]);
      FirstWillDo(parts[i..], rest, at.value);
      assert parts[i..][1..] == parts[i + 1..];
      rest := rest[at.value + |parts[i]|..];
      i := i + 1;
    }
    var last := parts[|parts| - 1];
    assert parts[i..] == [last];
    EndsWith(rest, last);
    r := |rest| >= |last| && rest[|rest| - |last|..] == last;
  }

  lemma Starts(text: string, first: string)
    ensures StartsWith(text, first) <==> StandsAt(text, 0, first)
  {
    assert |first| <= |text| ==> text[0..|first|] == text[..|first|];
  }

  lemma AtFits(text: string, at: nat, part: string)
    requires StandsAt(text, at, part)
    ensures at + |part| <= |text|
  {
  }

  lemma OnePart(pattern: string)
    requires |Split(pattern, '*')| == 1
    ensures '*' !in pattern
  {
  }

  lemma ManyParts(pattern: string)
    requires |Split(pattern, '*')| > 1
    ensures '*' in pattern
  {
  }

  // ------------------------------------------------------------ rules by pattern

  datatype Rule<T> = Rule(pattern: string, value: T)

  function Literals(pattern: string): nat {
    if pattern == "" then 0 else (if pattern[0] == '*' then 0 else 1) + Literals(pattern[1..])
  }

  predicate Applies<T>(rule: Rule<T>, name: string) {
    '*' in rule.pattern && Matches(rule.pattern, name)
  }

  /** The rule for this very name. */
  function Exact<T>(rules: seq<Rule<T>>, name: string): Option<Rule<T>> {
    if rules == [] then None
    else if rules[0].pattern == name then Some(rules[0])
    else Exact(rules[1..], name)
  }

  /** The most specific pattern that applies; of equally specific ones, the first. */
  function Best<T>(rules: seq<Rule<T>>, name: string): Option<Rule<T>> {
    if rules == [] then None
    else
      var rest := Best(rules[1..], name);
      if Applies(rules[0], name) && (rest.None? || Literals(rules[0].pattern) >= Literals(rest.value.pattern))
      then Some(rules[0]) else rest
  }

  /** The value for a name: its own rule, else the most specific pattern, else the default. Rules come in
      the order of their patterns. */
  function Choose<T>(rules: seq<Rule<T>>, name: string, default: T): T {
    if Exact(rules, name).Some? then Exact(rules, name).value.value
    else if Best(rules, name).Some? then Best(rules, name).value.value
    else default
  }

  lemma {:induction false} BestIsBest<T>(rules: seq<Rule<T>>, name: string)
    ensures Best(rules, name).None? <==> forall r :: r in rules ==> !Applies(r, name)
    ensures Best(rules, name).Some? ==>
              var best := Best(rules, name).value;
              && best in rules && Applies(best, name)
              && (forall r :: r in rules && Applies(r, name) ==> Literals(r.pattern) <= Literals(best.pattern))
              && (exists i :: 0 <= i < |rules| && rules[i] == best &&
                    forall j :: 0 <= j < i && Applies(rules[j], name) ==> Literals(rules[j].pattern) < Literals(best.pattern))
  {
    if rules != [] {
      var rest := rules[1..];
      BestIsBest(rest, name);
      assert forall r :: r in rules <==> r == rules[0] || r in rest;
      if Best(rules, name).Some? {
        var best := Best(rules, name).value;
        if Applies(rules[0], name) && (Best(rest, name).None? || Literals(rules[0].pattern) >= Literals(Best(rest, name).value.pattern)) {
          assert rules[0] == best;
        } else {
          var i :| 0 <= i < |rest| && rest[i] == best &&
                   forall j :: 0 <= j < i && Applies(rest[j], name) ==> Literals(rest[j].pattern) < Literals(best.pattern);
          forall j | 0 <= j < i + 1 && Applies(rules[j], name)
            ensures Literals(rules[j].pattern) < Literals(best.pattern)
          {
            if j > 0 { assert rules[j] == rest[j - 1]; }
          }
          assert rules[i + 1] == best;
        }
      }
    }
  }

  /** How specific a pattern is: its characters, not counting stars. */
  lemma {:induction false} LiteralsAdd(a: string, b: string, c: char)
    ensures Literals([c]) == if c == '*' then 0 else 1
    ensures Literals(a + b) == Literals(a) + Literals(b)
  {
    assert [c][1..] == "";
    if a == "" {
      assert a + b == b;
    } else {
      assert (a + b)[1..] == a[1..] + b;
      LiteralsAdd(a[1..], b, c);
    }
  }

  /** Main result: whose value a name gets. A rule for the very name wins, the first of them; else, of the patterns
      with a star that match it, the first of those with the most literal characters; else the default. */
  lemma ChooseMeans<T>(rules: seq<Rule<T>>, name: string, default: T) returns (i: nat)
    ensures (exists r :: r in rules && r.pattern == name) ==>
              && i < |rules| && rules[i].pattern == name && Choose(rules, name, default) == rules[i].value
              && forall j :: 0 <= j < i ==> rules[j].pattern != name
    ensures (forall r :: r in rules ==> r.pattern != name) && (exists r :: r in rules && '*' in r.pattern && Matches(r.pattern, name)) ==>
              && i < |rules| && '*' in rules[i].pattern && Matches(rules[i].pattern, name)
              && Choose(rules, name, default) == rules[i].value
              && (forall j :: 0 <= j < |rules| && '*' in rules[j].pattern && Matches(rules[j].pattern, name) ==>
                    Literals(rules[j].pattern) <= Literals(rules[i].pattern) && (j < i ==> Literals(rules[j].pattern) < Literals(rules[i].pattern)))
    ensures (forall r :: r in rules ==> r.pattern != name && !('*' in r.pattern && Matches(r.pattern, name))) ==>
              Choose(rules, name, default) == default
  {
    hide Literals, Matches;
    ExactIsExact(rules, name);
    BestIsBest(rules, name);
    i := 0;
    if Exact(rules, name).Some? {
      i := ExactIsFirst(rules, name);
    } else if Best(rules, name).Some? {
      var best := Best(rules, name).value;
      i :| 0 <= i < |rules| && rules[i] == best &&
           forall j :: 0 <= j < i && Applies(rules[j], name) ==> Literals(rules[j].pattern) < Literals(best.pattern);
      forall j | 0 <= j < |rules| && '*' in rules[j].pattern && Matches(rules[j].pattern, name)
        ensures Literals(rules[j].pattern) <= Literals(rules[i].pattern) && (j < i ==> Literals(rules[j].pattern) < Literals(rules[i].pattern))
      {
        assert Applies(rules[j], name) && rules[j] in rules;
      }
    }
    assert forall r :: r in rules && '*' in r.pattern && Matches(r.pattern, name) ==> Applies(r, name);
  }

  lemma {:induction false} ExactIsFirst<T>(rules: seq<Rule<T>>, name: string) returns (i: nat)
    requires Exact(rules, name).Some?
    ensures i < |rules| && rules[i] == Exact(rules, name).value && rules[i].pattern == name
    ensures forall j :: 0 <= j < i ==> rules[j].pattern != name
  {
    if rules[0].pattern == name {
      i := 0;
    } else {
      var k := ExactIsFirst(rules[1..], name);
      i := k + 1;
    }
  }

  lemma {:induction false} ExactIsExact<T>(rules: seq<Rule<T>>, name: string)
    ensures Exact(rules, name).None? <==> forall r :: r in rules ==> r.pattern != name
    ensures Exact(rules, name).Some? ==> Exact(rules, name).value in rules && Exact(rules, name).value.pattern == name
  {
    if rules != [] {
      ExactIsExact(rules[1..], name);
    }
  }
}
