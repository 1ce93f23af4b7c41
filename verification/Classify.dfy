/** The ordered substring rules that turn a raw reply into an outcome. */
module Classify {

  datatype Kind =
    | Delivered | HardBounce | SoftBounce | ProviderDeferral
    | RateLimited | TransientFailure | PolicyRejection

  datatype Result = Result(kind: Kind, retryable: bool)
  datatype Rule = Rule(phrase: string, result: Result)

  // The table, in order, in four runs: the recipient, a busy provider, policy, and failures that pass.

  const RECIPIENT_RULES: seq<Rule> := [
    Rule("user unknown", Result(HardBounce, false)),
    Rule("no such user", Result(HardBounce, false)),
    Rule("mailbox unavailable", Result(HardBounce, false)),
    Rule("does not exist", Result(HardBounce, false))
  ]

  const BUSY_RULES: seq<Rule> := [
    Rule("mailbox full", Result(SoftBounce, true)),
    Rule("over quota", Result(SoftBounce, true)),
    Rule("rate limited", Result(RateLimited, true)),
    Rule("too many", Result(RateLimited, true)),
    Rule("try again later", Result(ProviderDeferral, true)),
    Rule("greylist", Result(ProviderDeferral, true)),
    Rule("deferred", Result(ProviderDeferral, true))
  ]

  const POLICY_RULES: seq<Rule> := [
    Rule("spam", Result(PolicyRejection, false)),
    Rule("blocked", Result(PolicyRejection, false)),
    Rule("policy", Result(PolicyRejection, false))
  ]

  const TEMPORARY_RULES: seq<Rule> := [
    Rule("temporary failure", Result(TransientFailure, true)),
    Rule("temporarily", Result(TransientFailure, true))
  ]

  const RULES: seq<Rule> := RECIPIENT_RULES + (BUSY_RULES + (POLICY_RULES + TEMPORARY_RULES))

  function LowerChar(c: char): char {
    if 'A' <= c <= 'Z' then c - 'A' + 'a' else c
  }

  function Lower(s: string): (t: string)
    ensures |t| == |s| && forall i :: 0 <= i < |s| ==> t[i] == LowerChar(s[i])
  {
    seq(|s|, i requires 0 <= i < |s| => LowerChar(s[i]))
  }

  predicate OccursAt(s: string, i: nat, phrase: string) {
    i + |phrase| <= |s| && s[i..i + |phrase|] == phrase
  }

  predicate Contains(s: string, phrase: string) {
    exists i: nat :: i <= |s| && OccursAt(s, i, phrase)
  }

  lemma ContainsExactly(s: string, phrase: string)
    ensures Contains(s, phrase) <==> exists before, after :: s == before + phrase + after
  {
    if Contains(s, phrase) {
      var i: nat :| i <= |s| && OccursAt(s, i, phrase);
      assert s == s[..i] + phrase + s[i + |phrase|..];
    }
    if before, after :| s == before + phrase + after {
      assert OccursAt(s, |before|, phrase);
    }
  }

  lemma LowerAlphabet()
    ensures Lower("ABCDEFGHIJKLMNOPQRSTUVWXYZ") == "abcdefghijklmnopqrstuvwxyz"
  {
  }

  /** The result of the first rule whose phrase occurs, and success when none does. */
  function FirstMatch(lower: string, rules: seq<Rule>): Result {
    if rules == [] then Result(Delivered, false)
    else if Contains(lower, rules[0].phrase) then rules[0].result
    else FirstMatch(lower, rules[1..])
  }

  function Classify(raw: string): Result { FirstMatch(Lower(raw), RULES) }

  /** The kinds the worker retries: every case its outcome switch leaves to the default branch. */
  predicate TakesDefaultBranch(k: Kind) {
    k != Delivered && k != HardBounce && k != PolicyRejection
  }

  lemma {:induction false} FirstMatchAgrees(lower: string, rules: seq<Rule>)
    requires forall i :: 0 <= i < |rules| ==> (rules[i].result.retryable <==> TakesDefaultBranch(rules[i].result.kind))
    ensures var r := FirstMatch(lower, rules); r.retryable <==> TakesDefaultBranch(r.kind)
  {
    if rules != [] { FirstMatchAgrees(lower, rules[1..]); }
  }

  /** For every reply at all, the flag the classifier sets is the branch the worker takes. */
  lemma RetryableIsTheDefaultBranch(raw: string)
    ensures var r := Classify(raw); r.retryable <==> TakesDefaultBranch(r.kind)
  {
    FirstMatchAgrees(Lower(raw), RULES);
  }

  /** The phrase of rule k occurs and no earlier one does. */
  predicate Decides(lower: string, rules: seq<Rule>, k: nat) {
    k < |rules| && Contains(lower, rules[k].phrase) && forall i :: 0 <= i < k ==> !Contains(lower, rules[i].phrase)
  }

  lemma {:induction false} FirstMatchIs(lower: string, rules: seq<Rule>, k: nat)
    requires Decides(lower, rules, k)
    ensures FirstMatch(lower, rules) == rules[k].result
  {
    if k > 0 {
      assert forall i :: 0 <= i < k - 1 ==> rules[1..][i] == rules[i + 1];
      FirstMatchIs(lower, rules[1..], k - 1);
    }
  }

  /** A reply is delivered exactly when no phrase occurs, whatever its code says. */
  lemma {:induction false} DeliveredExactly(lower: string, rules: seq<Rule>)
    requires forall i :: 0 <= i < |rules| ==> rules[i].result.kind != Delivered
    ensures FirstMatch(lower, rules).kind == Delivered
            <==> forall i :: 0 <= i < |rules| ==> !Contains(lower, rules[i].phrase)
  {
    if rules != [] {
      DeliveredExactly(lower, rules[1..]);
      assert rules[0] in rules;
      assert forall i :: 0 < i < |rules| ==> rules[i] == rules[1..][i - 1];
      assert forall i :: 0 <= i < |rules| - 1 ==> rules[1..][i] == rules[i + 1];
    }
  }

  predicate NoneOccurs(s: string, rules: seq<Rule>) {
    forall i :: 0 <= i < |rules| ==> !Contains(s, rules[i].phrase)
  }

  /** Rules none of whose phrases occurs do not influence the result. */
  lemma {:induction false} SkipRules(s: string, rules: seq<Rule>, rest: seq<Rule>)
    requires NoneOccurs(s, rules)
    ensures FirstMatch(s, rules + rest) == FirstMatch(s, rest)
  {
    if rules == [] {
      assert rules + rest == rest;
    } else {
      assert (rules + rest)[1..] == rules[1..] + rest;
      SkipRules(s, rules[1..], rest);
    }
  }

  lemma PairOccurs(s: string, phrase: string, j: nat) returns (i: nat)
    requires j + 1 < |phrase| && Contains(s, phrase)
    ensures i + 1 < |s| && s[i] == phrase[j] && s[i + 1] == phrase[j + 1]
  {
    var k: nat :| k <= |s| && OccursAt(s, k, phrase);
    i := k + j;
    assert phrase[j] == s[k..k + |phrase|][j] && phrase[j + 1] == s[k..k + |phrase|][j + 1];
  }

  /** Some rule decides unless no phrase occurs. */
  lemma {:induction false} SomeRuleDecides(lower: string, rules: seq<Rule>) returns (k: nat)
    requires !NoneOccurs(lower, rules)
    ensures Decides(lower, rules, k)
  {
    if Contains(lower, rules[0].phrase) { return 0; }
    assert forall i :: 0 < i < |rules| ==> rules[i] == rules[1..][i - 1];
    var j := SomeRuleDecides(lower, rules[1..]);
    k := j + 1;
  }

  /** A result is r exactly when a rule that decides says r, or no phrase occurs and r is success. */
  lemma FirstMatchExactly(lower: string, rules: seq<Rule>, r: Result)
    ensures FirstMatch(lower, rules) == r
            <==> (exists k: nat :: Decides(lower, rules, k) && rules[k].result == r)
                 || (NoneOccurs(lower, rules) && r == Result(Delivered, false))
  {
    if NoneOccurs(lower, rules) {
      SkipRules(lower, rules, []);
      assert rules + [] == rules;
    } else {
      var j := SomeRuleDecides(lower, rules);
      FirstMatchIs(lower, rules, j);
      forall k: nat | Decides(lower, rules, k) ensures k == j {}
    }
  }

  /** A phrase holding two neighbouring characters that s never has side by side does not occur in s. */
  lemma AbsentByPair(s: string, phrase: string, j: nat)
    requires j + 1 < |phrase|
    requires forall i :: 0 <= i < |s| - 1 ==> s[i] != phrase[j] || s[i + 1] != phrase[j + 1]
    ensures !Contains(s, phrase)
  {
    if Contains(s, phrase) { var i := PairOccurs(s, phrase, j); }
  }

  /** Nor does a phrase with a character that s lacks. */
  lemma AbsentByChar(s: string, phrase: string, j: nat)
    requires j < |phrase| && phrase[j] !in s
    ensures !Contains(s, phrase)
  {
    if Contains(s, phrase) {
      var k: nat :| k <= |s| && OccursAt(s, k, phrase);
      CharOccurs(s, phrase, k, j);
    }
  }

  lemma CharOccurs(s: string, phrase: string, k: nat, j: nat)
    requires OccursAt(s, k, phrase) && j < |phrase|
    ensures phrase[j] in s
  {
    assert phrase[j] == s[k..k + |phrase|][j];
  }

  /** A phrase that begins with a character missing from the code occurs only in the text after it. */
  lemma CodeIsIgnored(code: string, text: string, phrase: string)
    requires phrase != "" && phrase[0] !in code
    ensures Contains(code + text, phrase) <==> Contains(text, phrase)
  {
    var s := code + text;
    if k: nat :| k <= |s| && OccursAt(s, k, phrase) {
      assert s[k] == s[k..k + |phrase|][0] == phrase[0];
      assert text[k - |code|..k - |code| + |phrase|] == s[k..k + |phrase|];
      assert OccursAt(text, k - |code|, phrase);
    }
    if k: nat :| k <= |text| && OccursAt(text, k, phrase) {
      assert s[|code| + k..|code| + k + |phrase|] == text[k..k + |phrase|];
      assert OccursAt(s, |code| + k, phrase);
    }
  }

  lemma {:induction false} FirstMatchIgnoresCode(code: string, text: string, rules: seq<Rule>)
    requires forall i :: 0 <= i < |rules| ==> rules[i].phrase != "" && rules[i].phrase[0] !in code
    ensures FirstMatch(code + text, rules) == FirstMatch(text, rules)
  {
    if rules != [] {
      CodeIsIgnored(code, text, rules[0].phrase);
      FirstMatchIgnoresCode(code, text, rules[1..]);
    }
  }

  /** Every phrase begins with a letter. */
  lemma PhrasesBeginWithLetters(i: nat)
    requires i < |RULES|
    ensures RULES[i].phrase != "" && 'a' <= RULES[i].phrase[0] <= 'z'
  {
  }

  // The table in words.

  predicate Says(lower: string, phrases: seq<string>) { exists i :: 0 <= i < |phrases| && Contains(lower, phrases[i]) }

  const NO_RECIPIENT := ["user unknown", "no such user", "mailbox unavailable", "does not exist"]
  const NO_ROOM := ["mailbox full", "over quota"]
  const TOO_FAST := ["rate limited", "too many"]
  const NOT_NOW := ["try again later", "greylist", "deferred"]
  const UNWANTED := ["spam", "blocked", "policy"]
  const PASSING := ["temporary failure", "temporarily"]

  /** The kind that a stretch of rules gives each of its phrases. */
  predicate AllSay(rules: seq<Rule>, phrases: seq<string>, kind: Kind) {
    |rules| == |phrases|
    && forall i :: 0 <= i < |rules| ==> rules[i].phrase == phrases[i] && rules[i].result.kind == kind
  }

  /** Such a stretch decides exactly the texts that hold one of its phrases. */
  lemma {:induction false} StretchDecides(lower: string, rules: seq<Rule>, rest: seq<Rule>, phrases: seq<string>,
                                          kind: Kind)
    requires AllSay(rules, phrases, kind)
    ensures FirstMatch(lower, rules + rest).kind
            == if Says(lower, phrases) then kind else FirstMatch(lower, rest).kind
  {
    if Says(lower, phrases) {
      var i :| 0 <= i < |phrases| && Contains(lower, phrases[i]);
      assert !NoneOccurs(lower, rules);
      var k := SomeRuleDecides(lower, rules);
      assert (rules + rest)[k] == rules[k];
      assert forall j :: 0 <= j < k ==> (rules + rest)[j] == rules[j];
      FirstMatchIs(lower, rules + rest, k);
    } else {
      assert NoneOccurs(lower, rules);
      SkipRules(lower, rules, rest);
    }
  }

  /** The rules for a busy provider are three stretches. */
  lemma BusyDecides(lower: string, rest: seq<Rule>)
    ensures FirstMatch(lower, BUSY_RULES + rest).kind
            == if Says(lower, NO_ROOM) then SoftBounce
               else if Says(lower, TOO_FAST) then RateLimited
               else if Says(lower, NOT_NOW) then ProviderDeferral
               else FirstMatch(lower, rest).kind
  {
    var soft, fast, later := BUSY_RULES[..2], BUSY_RULES[2..4], BUSY_RULES[4..];
    assert BUSY_RULES + rest == soft + (fast + (later + rest));
    StretchDecides(lower, soft, fast + (later + rest), NO_ROOM, SoftBounce);
    StretchDecides(lower, fast, later + rest, TOO_FAST, RateLimited);
    StretchDecides(lower, later, rest, NOT_NOW, ProviderDeferral);
  }

  /**
   What a reply is taken for. An unknown recipient outweighs everything else, then a full mailbox, then
   a rate limit, then a request to come back, then a policy, then a passing failure; and a reply that says
   none of these was a delivery.
   */
  lemma KindByPrecedence(raw: string)
    ensures var lower := Lower(raw);
            Classify(raw).kind
            == if Says(lower, NO_RECIPIENT) then HardBounce
               else if Says(lower, NO_ROOM) then SoftBounce
               else if Says(lower, TOO_FAST) then RateLimited
               else if Says(lower, NOT_NOW) then ProviderDeferral
               else if Says(lower, UNWANTED) then PolicyRejection
               else if Says(lower, PASSING) then TransientFailure
               else Delivered
  {
    var lower := Lower(raw);
    var last := POLICY_RULES + TEMPORARY_RULES;
    assert TEMPORARY_RULES == TEMPORARY_RULES + [];
    StretchDecides(lower, RECIPIENT_RULES, BUSY_RULES + last, NO_RECIPIENT, HardBounce);
    BusyDecides(lower, last);
    StretchDecides(lower, POLICY_RULES, TEMPORARY_RULES, UNWANTED, PolicyRejection);
    StretchDecides(lower, TEMPORARY_RULES, [], PASSING, TransientFailure);
  }
}
