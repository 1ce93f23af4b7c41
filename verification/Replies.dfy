/** Which rule decides each of the texts the simulated provider replies with. */
module Replies {
  import opened Classify

  lemma UserUnknownText()
    ensures FirstMatch("user unknown", RULES).kind == HardBounce
  {
    assert OccursAt("user unknown", 0, "user unknown");
    FirstMatchIs("user unknown", RECIPIENT_RULES + (BUSY_RULES + (POLICY_RULES + TEMPORARY_RULES)), 0);
  }

  lemma MailboxFullLacks()
    ensures var s := "mailbox full";
            !Contains(s, "user unknown") && !Contains(s, "no such user") && !Contains(s, "mailbox unavailable")
            && !Contains(s, "does not exist")
  {
    var s := "mailbox full";
    AbsentByChar(s, "user unknown", 1);
    AbsentByChar(s, "no such user", 0);
    AbsentByChar(s, "mailbox unavailable", 9);
    AbsentByChar(s, "does not exist", 0);
  }

  lemma MailboxFullText()
    ensures FirstMatch("mailbox full", RULES).kind == SoftBounce
  {
    MailboxFullLacks();
    SkipRules("mailbox full", RECIPIENT_RULES, BUSY_RULES + (POLICY_RULES + TEMPORARY_RULES));
    assert OccursAt("mailbox full", 0, "mailbox full");
    FirstMatchIs("mailbox full", BUSY_RULES + (POLICY_RULES + TEMPORARY_RULES), 0);
  }

  lemma RateLimitedLacks1()
    ensures var s := "rate limited";
            !Contains(s, "user unknown") && !Contains(s, "no such user") && !Contains(s, "mailbox unavailable")
            && !Contains(s, "does not exist")
  {
    var s := "rate limited";
    AbsentByChar(s, "user unknown", 0);
    AbsentByChar(s, "no such user", 0);
    AbsentByChar(s, "mailbox unavailable", 4);
    AbsentByChar(s, "does not exist", 1);
  }

  lemma RateLimitedLacks2()
    ensures var s := "rate limited";
            !Contains(s, "mailbox full") && !Contains(s, "over quota")
  {
    var s := "rate limited";
    AbsentByChar(s, "mailbox full", 4);
    AbsentByChar(s, "over quota", 0);
  }

  lemma RateLimitedText()
    ensures FirstMatch("rate limited", RULES).kind == RateLimited
  {
    RateLimitedLacks1(); RateLimitedLacks2();
    SkipRules("rate limited", RECIPIENT_RULES, BUSY_RULES + (POLICY_RULES + TEMPORARY_RULES));
    assert OccursAt("rate limited", 0, "rate limited");
    FirstMatchIs("rate limited", BUSY_RULES + (POLICY_RULES + TEMPORARY_RULES), 2);
  }

  lemma TryAgainLaterLacks1()
    ensures var s := "try again later";
            !Contains(s, "user unknown") && !Contains(s, "no such user") && !Contains(s, "mailbox unavailable")
            && !Contains(s, "does not exist")
  {
    var s := "try again later";
    AbsentByChar(s, "user unknown", 0);
    AbsentByChar(s, "no such user", 1);
    AbsentByChar(s, "mailbox unavailable", 0);
    AbsentByChar(s, "does not exist", 0);
  }

  lemma TryAgainLaterLacks2()
    ensures var s := "try again later";
            !Contains(s, "mailbox full") && !Contains(s, "over quota") && !Contains(s, "rate limited")
            && !Contains(s, "too many")
  {
    var s := "try again later";
    AbsentByChar(s, "mailbox full", 0);
    AbsentByChar(s, "over quota", 0);
    AbsentByChar(s, "rate limited", 7);
    AbsentByChar(s, "too many", 1);
  }

  lemma TryAgainLaterText()
    ensures FirstMatch("try again later", RULES).kind == ProviderDeferral
  {
    TryAgainLaterLacks1(); TryAgainLaterLacks2();
    SkipRules("try again later", RECIPIENT_RULES, BUSY_RULES + (POLICY_RULES + TEMPORARY_RULES));
    assert OccursAt("try again later", 0, "try again later");
    FirstMatchIs("try again later", BUSY_RULES + (POLICY_RULES + TEMPORARY_RULES), 4);
  }

  lemma SpamLacks1()
    ensures var s := "message rejected as spam"; !Contains(s, "user unknown") && !Contains(s, "no such user")
  {
    var s := "message rejected as spam";
    AbsentByChar(s, "user unknown", 0);
    AbsentByChar(s, "no such user", 0);
  }

  lemma SpamLacks4()
    ensures var s := "message rejected as spam"; !Contains(s, "mailbox unavailable") && !Contains(s, "does not exist")
  {
    var s := "message rejected as spam";
    AbsentByChar(s, "mailbox unavailable", 2);
    AbsentByChar(s, "does not exist", 1);
  }

  lemma SpamLacks2()
    ensures var s := "message rejected as spam";
            !Contains(s, "mailbox full") && !Contains(s, "over quota") && !Contains(s, "rate limited")
            && !Contains(s, "too many")
  {
    var s := "message rejected as spam";
    AbsentByChar(s, "mailbox full", 2);
    AbsentByChar(s, "over quota", 0);
    AbsentByChar(s, "rate limited", 5);
    AbsentByChar(s, "too many", 1);
  }

  lemma SpamLacks3()
    ensures var s := "message rejected as spam";
            !Contains(s, "try again later") && !Contains(s, "greylist") && !Contains(s, "deferred")
  {
    var s := "message rejected as spam";
    AbsentByChar(s, "try again later", 2);
    AbsentByChar(s, "greylist", 3);
    AbsentByChar(s, "deferred", 2);
  }

  lemma SpamText()
    ensures FirstMatch("message rejected as spam", RULES).kind == PolicyRejection
  {
    SpamLacks1(); SpamLacks2(); SpamLacks3(); SpamLacks4();
    SkipRules("message rejected as spam", RECIPIENT_RULES, BUSY_RULES + (POLICY_RULES + TEMPORARY_RULES));
    SkipRules("message rejected as spam", BUSY_RULES, POLICY_RULES + TEMPORARY_RULES);
    assert OccursAt("message rejected as spam", 20, "spam");
    FirstMatchIs("message rejected as spam", POLICY_RULES + TEMPORARY_RULES, 0);
  }

  lemma TemporaryFailureLacks1()
    ensures var s := "temporary failure in processing";
            !Contains(s, "user unknown") && !Contains(s, "no such user")
  {
    var s := "temporary failure in processing";
    AbsentByChar(s, "user unknown", 7);
    AbsentByChar(s, "no such user", 6);
  }

  lemma TemporaryFailureLacks2()
    ensures var s := "temporary failure in processing";
            !Contains(s, "mailbox unavailable") && !Contains(s, "does not exist")
  {
    var s := "temporary failure in processing";
    AbsentByChar(s, "mailbox unavailable", 4);
    AbsentByChar(s, "does not exist", 0);
  }

  lemma TemporaryFailureLacks3()
    ensures var s := "temporary failure in processing";
            !Contains(s, "mailbox full") && !Contains(s, "over quota")
  {
    var s := "temporary failure in processing";
    AbsentByChar(s, "mailbox full", 4);
    AbsentByChar(s, "over quota", 1);
  }

  lemma TemporaryFailureLacks4()
    ensures var s := "temporary failure in processing";
            !Contains(s, "rate limited") && !Contains(s, "too many")
  {
    var s := "temporary failure in processing";
    AbsentByChar(s, "rate limited", 11);
    AbsentByPair(s, "too many", 0);
  }

  lemma TemporaryFailureLacks5()
    ensures var s := "temporary failure in processing";
            !Contains(s, "try again later") && !Contains(s, "greylist")
  {
    var s := "temporary failure in processing";
    AbsentByPair(s, "try again later", 0);
    AbsentByPair(s, "greylist", 0);
  }

  lemma TemporaryFailureLacks6()
    ensures var s := "temporary failure in processing";
            !Contains(s, "deferred") && !Contains(s, "spam")
  {
    var s := "temporary failure in processing";
    AbsentByChar(s, "deferred", 0);
    AbsentByPair(s, "spam", 0);
  }

  lemma TemporaryFailureLacks7()
    ensures var s := "temporary failure in processing";
            !Contains(s, "blocked") && !Contains(s, "policy")
  {
    var s := "temporary failure in processing";
    AbsentByChar(s, "blocked", 0);
    AbsentByPair(s, "policy", 1);
  }

  lemma TemporaryFailureText()
    ensures FirstMatch("temporary failure in processing", RULES).kind == TransientFailure
  {
    TemporaryFailureLacks1(); TemporaryFailureLacks2(); TemporaryFailureLacks3(); TemporaryFailureLacks4();
    TemporaryFailureLacks5(); TemporaryFailureLacks6(); TemporaryFailureLacks7();
    SkipRules("temporary failure in processing", RECIPIENT_RULES, BUSY_RULES + (POLICY_RULES + TEMPORARY_RULES));
    SkipRules("temporary failure in processing", BUSY_RULES, POLICY_RULES + TEMPORARY_RULES);
    SkipRules("temporary failure in processing", POLICY_RULES, TEMPORARY_RULES);
    assert OccursAt("temporary failure in processing", 0, "temporary failure");
    FirstMatchIs("temporary failure in processing", TEMPORARY_RULES, 0);
  }

  lemma QueuedLacks1()
    ensures var s := "ok queued as delivered";
            !Contains(s, "user unknown") && !Contains(s, "no such user") && !Contains(s, "mailbox unavailable")
            && !Contains(s, "does not exist")
  {
    var s := "ok queued as delivered";
    AbsentByChar(s, "user unknown", 6);
    AbsentByChar(s, "no such user", 0);
    AbsentByChar(s, "mailbox unavailable", 0);
    AbsentByChar(s, "does not exist", 5);
  }

  lemma QueuedLacks2()
    ensures var s := "ok queued as delivered";
            !Contains(s, "mailbox full") && !Contains(s, "over quota") && !Contains(s, "rate limited")
            && !Contains(s, "too many")
  {
    var s := "ok queued as delivered";
    AbsentByChar(s, "mailbox full", 0);
    AbsentByChar(s, "over quota", 8);
    AbsentByChar(s, "rate limited", 2);
    AbsentByChar(s, "too many", 0);
  }

  lemma QueuedLacks3()
    ensures var s := "ok queued as delivered"; !Contains(s, "try again later") && !Contains(s, "greylist")
  {
    var s := "ok queued as delivered";
    AbsentByChar(s, "try again later", 0);
    AbsentByChar(s, "greylist", 0);
  }

  lemma QueuedLacks5()
    ensures var s := "ok queued as delivered"; !Contains(s, "deferred") && !Contains(s, "spam")
  {
    var s := "ok queued as delivered";
    AbsentByChar(s, "deferred", 2);
    AbsentByChar(s, "spam", 1);
  }

  lemma QueuedLacks4()
    ensures var s := "ok queued as delivered";
            !Contains(s, "blocked") && !Contains(s, "policy") && !Contains(s, "temporary failure")
            && !Contains(s, "temporarily")
  {
    var s := "ok queued as delivered";
    AbsentByChar(s, "blocked", 0);
    AbsentByChar(s, "policy", 0);
    AbsentByChar(s, "temporary failure", 0);
    AbsentByChar(s, "temporarily", 0);
  }

  lemma QueuedText()
    ensures FirstMatch("ok queued as delivered", RULES).kind == Delivered
  {
    QueuedLacks1(); QueuedLacks2(); QueuedLacks3(); QueuedLacks4(); QueuedLacks5();
    SkipRules("ok queued as delivered", RECIPIENT_RULES, BUSY_RULES + (POLICY_RULES + TEMPORARY_RULES));
    SkipRules("ok queued as delivered", BUSY_RULES, POLICY_RULES + TEMPORARY_RULES);
    SkipRules("ok queued as delivered", POLICY_RULES, TEMPORARY_RULES);
    SkipRules("ok queued as delivered", TEMPORARY_RULES, []);
  }
}
