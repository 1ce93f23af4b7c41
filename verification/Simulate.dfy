/** The simulated provider. */
module Simulate {
  import opened Base
  import opened Classify
  import opened Decimal
  import opened Replies

  datatype Reputation = Healthy | Degraded | Down

  /** Everything before the last '@', or the whole address. */
  function LocalPart(email: Email): string {
    if '@' in email then BeforeLastAt(email) else email
  }

  function BeforeLastAt(email: Email): (local: string)
    requires '@' in email
    ensures |local| < |email| && local == email[..|local|] && email[|local|] == '@'
    ensures '@' !in email[|local| + 1..]
  {
    if email[|email| - 1] == '@' then email[..|email| - 1]
    else
      var local := BeforeLastAt(email[..|email| - 1]);
      assert email[|local| + 1..] == email[..|email| - 1][|local| + 1..] + [email[|email| - 1]];
      local
  }

  datatype Reply = NoSuchUser | FullMailbox | OverRate | Greylisted | ComeBack | Spammy | Temporary | Accepted

  function Choose(to: Email, reputation: Reputation, rolledLimit: bool): Reply {
    var local := Lower(LocalPart(to));
    if Contains(local, "bounce") || Contains(local, "unknown") then NoSuchUser
    else if Contains(local, "full") then FullMailbox
    else if Contains(local, "ratelimit") then OverRate
    else if Contains(local, "defer") || Contains(local, "greylist") then Greylisted
    else if Contains(local, "spam") then Spammy
    else if Contains(local, "tempfail") then Temporary
    else match reputation
      case Down => ComeBack
      case Degraded => if rolledLimit then OverRate else Accepted
      case Healthy => Accepted
  }

  function Wire(r: Reply): string {
    match r
    case NoSuchUser => "550 5.1.1 " + "user unknown"
    case FullMailbox => "452 4.2.2 " + "mailbox full"
    case OverRate => "421 4.7.0 " + "rate limited"
    case Greylisted => "451 4.7.1 " + "try again later"
    case ComeBack => "421 4.7.0 " + "try again later"
    case Spammy => "554 5.7.1 " + "message rejected as spam"
    case Temporary => "451 4.3.0 " + "temporary failure in processing"
    case Accepted => "250 2.0.0 " + "OK queued as delivered"
  }

  function RawResponse(to: Email, reputation: Reputation, rolledLimit: bool): string {
    Wire(Choose(to, reputation, rolledLimit))
  }

  predicate IsSpace(c: char) { c == ' ' || c == '\t' || c == '\n' || c == '\r' || c == '\U{0b}' || c == '\U{0c}' }

  function SkipSpace(s: string): string {
    if s != "" && IsSpace(s[0]) then SkipSpace(s[1..]) else s
  }

  function FirstField(s: string): string {
    if s == "" || IsSpace(s[0]) then "" else [s[0]] + FirstField(s[1..])
  }

  /** The leading status code of a reply, or 0. */
  function ParseSmtpCode(raw: string): int { AtoiOrZero(FirstField(SkipSpace(raw))) }

  datatype DeliveryResult = DeliveryResult(smtpCode: int, raw: string, kind: Kind, retryable: bool)

  function Simulate(to: Email, reputation: Reputation, rolledLimit: bool): DeliveryResult {
    var raw := RawResponse(to, reputation, rolledLimit);
    var res := Classify.Classify(raw);
    DeliveryResult(ParseSmtpCode(raw), raw, res.kind, res.retryable)
  }

  /** Section 4.2.1 of RFC 5321: the first digit of a reply says completed, transient or permanent. */
  predicate AgreesWithCode(code: int, kind: Kind) {
    match code / 100
    case 2 => kind == Delivered
    case 4 => TakesDefaultBranch(kind)
    case 5 => kind == HardBounce || kind == PolicyRejection
    case _ => false
  }

  predicate ReplyAgrees(raw: string) { AgreesWithCode(ParseSmtpCode(raw), Classify.Classify(raw).kind) }

  predicate RepliesAs(raw: string, kind: Kind) { ReplyAgrees(raw) && Classify.Classify(raw).kind == kind }

  lemma FirstFieldOfCode(raw: string)
    requires |raw| >= 4 && IsDigit(raw[0]) && IsDigit(raw[1]) && IsDigit(raw[2]) && raw[3] == ' '
    ensures FirstField(SkipSpace(raw)) == [raw[0], raw[1], raw[2]]
  {
    assert FirstField(raw[3..]) == "";
    assert raw[2..][1..] == raw[3..] && raw[1..][1..] == raw[2..];
    assert FirstField(raw[2..]) == [raw[2]] + FirstField(raw[3..]) == [raw[2]];
    assert FirstField(raw[1..]) == [raw[1]] + FirstField(raw[2..]) == [raw[1], raw[2]];
    assert FirstField(raw) == [raw[0]] + FirstField(raw[1..]);
  }

  /** The first field of a reply is its first word, whatever white space stands before it. */
  lemma {:induction false} FirstFieldIs(pad: string, word: string, rest: string)
    requires forall i :: 0 <= i < |pad| ==> IsSpace(pad[i])
    requires word != "" && forall i :: 0 <= i < |word| ==> !IsSpace(word[i])
    requires rest == "" || IsSpace(rest[0])
    ensures FirstField(SkipSpace(pad + word + rest)) == word
    decreases |pad| + |word|
  {
    var s := pad + word + rest;
    if pad != "" {
      assert s[1..] == pad[1..] + word + rest;
      FirstFieldIs(pad[1..], word, rest);
    } else if |word| == 1 {
      assert s[1..] == rest && s[0] == word[0];
    } else {
      assert s[1..] == "" + word[1..] + rest && s[0] == word[0];
      FirstFieldIs("", word[1..], rest);
      assert word == [word[0]] + word[1..];
    }
  }

  lemma ThreeDigitCode(raw: string)
    requires |raw| >= 4 && IsDigit(raw[0]) && IsDigit(raw[1]) && IsDigit(raw[2]) && raw[3] == ' '
    ensures ParseSmtpCode(raw) / 100 == raw[0] as int - 48
  {
    FirstFieldOfCode(raw);
    ValueOfThree(raw[0], raw[1], raw[2]);
  }

  /** A reply is classified by its text: the code in front plays no part. */
  lemma ClassifiedByText(code: string, text: string)
    requires |code| == 10 && forall i :: 0 <= i < |code| ==> IsDigit(code[i]) || code[i] == '.' || code[i] == ' '
    requires IsDigit(code[0]) && IsDigit(code[1]) && IsDigit(code[2]) && code[3] == ' '
    ensures Classify.Classify(code + text) == FirstMatch(Lower(text), RULES)
    ensures ParseSmtpCode(code + text) / 100 == code[0] as int - 48
  {
    assert Lower(code + text) == code + Lower(text);
    forall i | 0 <= i < |RULES| ensures RULES[i].phrase != "" && RULES[i].phrase[0] !in code {
      PhrasesBeginWithLetters(i);
    }
    FirstMatchIgnoresCode(code, Lower(text), RULES);
    ThreeDigitCode(code + text);
  }

  /** A text without capitals reaches the rules unchanged. */
  lemma LowerKeeps(s: string)
    requires forall i :: 0 <= i < |s| ==> !('A' <= s[i] <= 'Z')
    ensures Lower(s) == s
  {
  }

  lemma LowerAccepted()
    ensures Lower("OK queued as delivered") == "ok queued as delivered"
  {
  }

  /** The kind of the text and the first digit of the code settle whether a reply agrees with its code. */
  lemma AgreesBy(code: string, text: string, lower: string, kind: Kind)
    requires |code| == 10 && forall i :: 0 <= i < |code| ==> IsDigit(code[i]) || code[i] == '.' || code[i] == ' '
    requires IsDigit(code[0]) && IsDigit(code[1]) && IsDigit(code[2]) && code[3] == ' '
    requires Lower(text) == lower && FirstMatch(lower, RULES).kind == kind
    requires AgreesWithCode(100 * (code[0] as int - 48), kind)
    ensures RepliesAs(code + text, kind)
  {
    ClassifiedByText(code, text);
  }

  lemma NoSuchUserAgrees()
    ensures RepliesAs("550 5.1.1 " + "user unknown", HardBounce)
  {
    UserUnknownText();
    LowerKeeps("user unknown");
    AgreesBy("550 5.1.1 ", "user unknown", "user unknown", HardBounce);
  }

  lemma FullMailboxAgrees()
    ensures RepliesAs("452 4.2.2 " + "mailbox full", SoftBounce)
  {
    MailboxFullText();
    LowerKeeps("mailbox full");
    AgreesBy("452 4.2.2 ", "mailbox full", "mailbox full", SoftBounce);
  }

  lemma OverRateAgrees()
    ensures RepliesAs("421 4.7.0 " + "rate limited", RateLimited)
  {
    RateLimitedText();
    LowerKeeps("rate limited");
    AgreesBy("421 4.7.0 ", "rate limited", "rate limited", RateLimited);
  }

  lemma GreylistedAgrees()
    ensures RepliesAs("451 4.7.1 " + "try again later", ProviderDeferral)
  {
    TryAgainLaterText();
    LowerKeeps("try again later");
    AgreesBy("451 4.7.1 ", "try again later", "try again later", ProviderDeferral);
  }

  lemma ComeBackAgrees()
    ensures RepliesAs("421 4.7.0 " + "try again later", ProviderDeferral)
  {
    TryAgainLaterText();
    LowerKeeps("try again later");
    AgreesBy("421 4.7.0 ", "try again later", "try again later", ProviderDeferral);
  }

  lemma SpammyAgrees()
    ensures RepliesAs("554 5.7.1 " + "message rejected as spam", PolicyRejection)
  {
    SpamText();
    LowerKeeps("message rejected as spam");
    AgreesBy("554 5.7.1 ", "message rejected as spam", "message rejected as spam", PolicyRejection);
  }

  lemma TemporaryAgrees()
    ensures RepliesAs("451 4.3.0 " + "temporary failure in processing", TransientFailure)
  {
    TemporaryFailureText();
    LowerKeeps("temporary failure in processing");
    AgreesBy("451 4.3.0 ", "temporary failure in processing", "temporary failure in processing", TransientFailure);
  }

  lemma AcceptedAgrees()
    ensures RepliesAs("250 2.0.0 " + "OK queued as delivered", Kind.Delivered)
  {
    QueuedText();
    LowerAccepted();
    AgreesBy("250 2.0.0 ", "OK queued as delivered", "ok queued as delivered", Delivered);
  }

  /** What a reply stands for. */
  function Meant(r: Reply): Kind {
    match r
    case NoSuchUser => HardBounce
    case FullMailbox => SoftBounce
    case OverRate => RateLimited
    case Greylisted => ProviderDeferral
    case ComeBack => ProviderDeferral
    case Spammy => PolicyRejection
    case Temporary => TransientFailure
    case Accepted => Kind.Delivered
  }

  lemma WireAgrees(r: Reply)
    ensures RepliesAs(Wire(r), Meant(r))
  {
    match r
    case NoSuchUser => NoSuchUserAgrees();
    case FullMailbox => FullMailboxAgrees();
    case OverRate => OverRateAgrees();
    case Greylisted => GreylistedAgrees();
    case ComeBack => ComeBackAgrees();
    case Spammy => SpammyAgrees();
    case Temporary => TemporaryAgrees();
    case Accepted => AcceptedAgrees();
  }

  /** For every recipient, reputation and draw, the reply's first digit decides the outcome. */
  lemma OutcomeAgreesWithCode(to: Email, reputation: Reputation, rolledLimit: bool)
    ensures var r := Simulate(to, reputation, rolledLimit); AgreesWithCode(r.smtpCode, r.kind)
  {
    WireAgrees(Choose(to, reputation, rolledLimit));
  }

  // Who gets which reply.

  lemma {:induction false} LastAtIs(email: Email, i: nat)
    requires i < |email| && email[i] == '@' && '@' !in email[i + 1..]
    ensures BeforeLastAt(email) == email[..i]
  {
    var last := |email| - 1;
    if i < last {
      assert email[i + 1..][last - i - 1] == email[last];
      assert email[i + 1..] == email[..last][i + 1..] + [email[last]];
      LastAtIs(email[..last], i);
    }
  }

  /** The part of an address before its last '@', or all of it where there is none. */
  lemma LocalPartIs(local: string, domain: string)
    requires '@' !in domain
    ensures LocalPart(local + "@" + domain) == local && LocalPart(domain) == domain
  {
    var email := local + "@" + domain;
    assert email[|local| + 1..] == domain && email[..|local|] == local && email[|local|] == '@';
    LastAtIs(email, |local|);
  }

  /** The recipient's local part says one of the words, in any case. */
  predicate Hints(to: Email, words: seq<string>) { Says(Lower(LocalPart(to)), words) }

  lemma ChooseByHints(to: Email, reputation: Reputation, rolledLimit: bool)
    ensures var reply := Choose(to, reputation, rolledLimit);
            if Hints(to, ["bounce", "unknown"]) then reply == NoSuchUser
            else if Hints(to, ["full"]) then reply == FullMailbox
            else if Hints(to, ["ratelimit"]) then reply == OverRate
            else if Hints(to, ["defer", "greylist"]) then reply == Greylisted
            else if Hints(to, ["spam"]) then reply == Spammy
            else if Hints(to, ["tempfail"]) then reply == Temporary
            else if reputation == Down then reply == ComeBack
            else if reputation == Degraded && rolledLimit then reply == OverRate
            else reply == Reply.Accepted
  {
    var local := Lower(LocalPart(to));
    assert forall a :: Says(local, [a]) <==> Contains(local, [a][0]);
    assert forall a, b :: Says(local, [a, b]) <==> Contains(local, [a, b][0]) || Contains(local, [a, b][1]);
  }

  /**
   Who meets which outcome: the hints of the recipient's address decide, in this order, and without one
   the health of the provider.
   */
  lemma OutcomeByRecipient(to: Email, reputation: Reputation, rolledLimit: bool)
    ensures Simulate(to, reputation, rolledLimit).kind
            == if Hints(to, ["bounce", "unknown"]) then HardBounce
               else if Hints(to, ["full"]) then SoftBounce
               else if Hints(to, ["ratelimit"]) then RateLimited
               else if Hints(to, ["defer", "greylist"]) then ProviderDeferral
               else if Hints(to, ["spam"]) then PolicyRejection
               else if Hints(to, ["tempfail"]) then TransientFailure
               else if reputation == Down then ProviderDeferral
               else if reputation == Degraded && rolledLimit then RateLimited
               else Kind.Delivered
  {
    ChooseByHints(to, reputation, rolledLimit);
    WireAgrees(Choose(to, reputation, rolledLimit));
  }

  /** The codes of the replies. */
  lemma CodeOfReply(r: Reply)
    ensures ParseSmtpCode(Wire(r))
            == match r
               case NoSuchUser => 550
               case FullMailbox => 452
               case OverRate => 421
               case Greylisted => 451
               case ComeBack => 421
               case Spammy => 554
               case Temporary => 451
               case Accepted => 250
  {
    FirstFieldOfCode(Wire(r));
    ValueOfThree(Wire(r)[0], Wire(r)[1], Wire(r)[2]);
  }

  /** Whose fault a rule says it is: of the whole table the recipient and policy rules refuse for good. */
  predicate Refuses(k: nat) {
    k < |RECIPIENT_RULES|
    || |RECIPIENT_RULES| + |BUSY_RULES| <= k < |RECIPIENT_RULES| + |BUSY_RULES| + |POLICY_RULES|
  }

  lemma RuleKinds(k: nat)
    requires k < |RULES|
    ensures RULES[k].result.kind != Delivered
    ensures Refuses(k) <==> RULES[k].result.kind == HardBounce || RULES[k].result.kind == PolicyRejection
  {
  }

  /**
   Exactly when the classifier agrees with the code of a reply, any reply at all: a completed one holds no
   listed phrase, a transient or permanent one holds one and the first of them says the same.
   */
  lemma ReplyAgreesExactly(raw: string)
    ensures ReplyAgrees(raw) <==>
            match ParseSmtpCode(raw) / 100
            case 2 => NoneOccurs(Lower(raw), RULES)
            case 4 => exists k: nat :: Decides(Lower(raw), RULES, k) && !Refuses(k)
            case 5 => exists k: nat :: Decides(Lower(raw), RULES, k) && Refuses(k)
            case _ => false
  {
    var lower := Lower(raw);
    if NoneOccurs(lower, RULES) {
      FirstMatchExactly(lower, RULES, Result(Delivered, false));
    } else {
      var k := SomeRuleDecides(lower, RULES);
      FirstMatchIs(lower, RULES, k);
      RuleKinds(k);
    }
  }

  /** Any rejection whose text holds no listed phrase is taken as delivered. */
  lemma UnmatchedRejectionIsDelivered(raw: string)
    requires ParseSmtpCode(raw) / 100 == 5 && NoneOccurs(Lower(raw), RULES)
    ensures Classify.Classify(raw).kind == Delivered && !ReplyAgrees(raw)
  {
    FirstMatchExactly(Lower(raw), RULES, Result(Delivered, false));
  }

  /** And there are such rejections. */
  lemma SomeRejectionIsUnmatched()
    ensures exists raw :: ParseSmtpCode(raw) / 100 == 5 && NoneOccurs(Lower(raw), RULES)
  {
    var text := "x";
    forall i | 0 <= i < |RULES| ensures !Contains(text, RULES[i].phrase) { PhrasesAreLong(i); }
    assert NoneOccurs(text, RULES);
    SkipRules(text, RULES, []);
    assert RULES + [] == RULES;
    LowerKeeps(text);
    ClassifiedByText("599 9.9.9 ", text);
    var raw := "599 9.9.9 " + text;
    if !NoneOccurs(Lower(raw), RULES) {
      var k := SomeRuleDecides(Lower(raw), RULES);
      FirstMatchIs(Lower(raw), RULES, k);
      RuleKinds(k);
    }
  }

  lemma PhrasesAreLong(i: nat)
    requires i < |RULES|
    ensures |RULES[i].phrase| > 1
  {
  }
}
