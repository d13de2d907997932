/** Properties of the fanout plan, the retry schedules and the SMS tallies of app/message.py. */
module MessagingFacts {
  import opened Wrappers
  import opened Text
  import opened Constants
  import opened Records
  import opened Transport
  import opened Messaging

  // ---------------------------------------------------------------------------------
  // Aggregation

  /**
   * The email list holds exactly the present emails of Email-enabled contacts, never more
   * entries than there are contacts.
   */
  lemma {:induction false} EmailsOfMeaning(contacts: seq<EmployeeContact>)
    ensures |EmailsOf(contacts)| <= |contacts|
    ensures forall e :: e in EmailsOf(contacts) <==>
      exists i :: 0 <= i < |contacts| && Enabled(contacts[i].contactWay, Email)
                  && Present(contacts[i].email) && contacts[i].email.value == e
  {
    if contacts != [] {
      var init := contacts[..|contacts| - 1];
      EmailsOfMeaning(init);
      assert forall i :: 0 <= i < |init| ==> init[i] == contacts[i];
    }
  }

  /**
   * The phone list holds exactly the present phones of SMS-enabled contacts, never more
   * entries than there are contacts.
   */
  lemma {:induction false} PhonesOfMeaning(contacts: seq<EmployeeContact>)
    ensures |PhonesOf(contacts)| <= |contacts|
    ensures forall p :: p in PhonesOf(contacts) <==>
      exists i :: 0 <= i < |contacts| && Enabled(contacts[i].contactWay, Sms)
                  && Present(contacts[i].phone) && contacts[i].phone.value == p
  {
    if contacts != [] {
      var init := contacts[..|contacts| - 1];
      PhonesOfMeaning(init);
      assert forall i :: 0 <= i < |init| ==> init[i] == contacts[i];
    }
  }

  lemma {:induction false} EmailJobsCount(emails: seq<string>, j: Job)
    ensures j.EmailJob? && |j.to| == 1 ==> multiset(EmailJobs(emails))[j] == multiset(emails)[j.to[0]]
    ensures !j.EmailJob? ==> multiset(EmailJobs(emails))[j] == 0
  {
    if emails != [] {
      var init := emails[..|emails| - 1];
      var last := emails[|emails| - 1];
      EmailJobsCount(init, j);
      assert EmailJobs(emails) == EmailJobs(init) + [EmailJob([last])];
      assert emails == init + [last];
      assert multiset(EmailJobs(emails)) == multiset(EmailJobs(init)) + multiset{EmailJob([last])};
      if j.EmailJob? && |j.to| == 1 {
        assert j.to == [j.to[0]];
        assert j == EmailJob([last]) <==> j.to[0] == last;
      }
    }
  }

  lemma WhenCount(b: bool, j: Job, k: Job)
    ensures multiset(When(b, j))[k] == if b && j == k then 1 else 0
  {
  }

  lemma OtherJobsCount(f: Fanout, j: Job)
    ensures multiset(OtherJobs(f))[j] ==
      multiset(When(f.line, LineJob))[j] + multiset(When(f.team, WebhookJob(PublisherTeams)))[j]
      + multiset(When(f.slack, WebhookJob(PublisherSlack)))[j] + multiset(When(f.discord, WebhookJob(PublisherDiscord)))[j]
      + multiset(When(|f.phones| > 0, SmsJob(f.phones)))[j]
  {
    var a, b, c := When(f.line, LineJob), When(f.team, WebhookJob(PublisherTeams)), When(f.slack, WebhookJob(PublisherSlack));
    var d, e := When(f.discord, WebhookJob(PublisherDiscord)), When(|f.phones| > 0, SmsJob(f.phones));
    var ab := a + b;
    var abc := ab + c;
    var abcd := abc + d;
    assert multiset(ab)[j] == multiset(a)[j] + multiset(b)[j];
    assert multiset(abc)[j] == multiset(ab)[j] + multiset(c)[j];
    assert multiset(abcd)[j] == multiset(abc)[j] + multiset(d)[j];
    assert multiset(abcd + e)[j] == multiset(abcd)[j] + multiset(e)[j];
  }

  lemma PlanCount(f: Fanout, j: Job)
    ensures multiset(Plan(f))[j] == multiset(EmailJobs(f.emails))[j] + multiset(OtherJobs(f))[j]
  {
  }

  /** The plan calls `send_email` for an address once per occurrence of it in the email list. */
  lemma PlanEmailCalls(f: Fanout, e: string)
    ensures multiset(Plan(f))[EmailJob([e])] == multiset(f.emails)[e]
  {
    var job := EmailJob([e]);
    PlanCount(f, job);
    EmailJobsCount(f.emails, job);
    OtherJobsCount(f, job);
    WhenCount(f.line, LineJob, job);
    WhenCount(f.team, WebhookJob(PublisherTeams), job);
    WhenCount(f.slack, WebhookJob(PublisherSlack), job);
    WhenCount(f.discord, WebhookJob(PublisherDiscord), job);
    WhenCount(|f.phones| > 0, SmsJob(f.phones), job);
  }

  /** The plan calls `send_line` once when Line was requested, never otherwise. */
  lemma PlanLineCalls(f: Fanout)
    ensures multiset(Plan(f))[LineJob] == if f.line then 1 else 0
  {
    var job := LineJob;
    PlanCount(f, job);
    EmailJobsCount(f.emails, job);
    OtherJobsCount(f, job);
    WhenCount(f.line, LineJob, job);
    WhenCount(f.team, WebhookJob(PublisherTeams), job);
    WhenCount(f.slack, WebhookJob(PublisherSlack), job);
    WhenCount(f.discord, WebhookJob(PublisherDiscord), job);
    WhenCount(|f.phones| > 0, SmsJob(f.phones), job);
  }

  /** The plan calls the Teams webhook once when requested, never otherwise. */
  lemma PlanTeamsCalls(f: Fanout)
    ensures multiset(Plan(f))[WebhookJob(PublisherTeams)] == if f.team then 1 else 0
  {
    var job := WebhookJob(PublisherTeams);
    PlanCount(f, job);
    EmailJobsCount(f.emails, job);
    OtherJobsCount(f, job);
    WhenCount(f.line, LineJob, job);
    WhenCount(f.team, WebhookJob(PublisherTeams), job);
    WhenCount(f.slack, WebhookJob(PublisherSlack), job);
    WhenCount(f.discord, WebhookJob(PublisherDiscord), job);
    WhenCount(|f.phones| > 0, SmsJob(f.phones), job);
  }

  /** The plan calls the Slack webhook once when requested, never otherwise. */
  lemma PlanSlackCalls(f: Fanout)
    ensures multiset(Plan(f))[WebhookJob(PublisherSlack)] == if f.slack then 1 else 0
  {
    var job := WebhookJob(PublisherSlack);
    PlanCount(f, job);
    EmailJobsCount(f.emails, job);
    OtherJobsCount(f, job);
    WhenCount(f.line, LineJob, job);
    WhenCount(f.team, WebhookJob(PublisherTeams), job);
    WhenCount(f.slack, WebhookJob(PublisherSlack), job);
    WhenCount(f.discord, WebhookJob(PublisherDiscord), job);
    WhenCount(|f.phones| > 0, SmsJob(f.phones), job);
  }

  /** The plan calls the Discord webhook once when requested, never otherwise. */
  lemma PlanDiscordCalls(f: Fanout)
    ensures multiset(Plan(f))[WebhookJob(PublisherDiscord)] == if f.discord then 1 else 0
  {
    var job := WebhookJob(PublisherDiscord);
    PlanCount(f, job);
    EmailJobsCount(f.emails, job);
    OtherJobsCount(f, job);
    WhenCount(f.line, LineJob, job);
    WhenCount(f.team, WebhookJob(PublisherTeams), job);
    WhenCount(f.slack, WebhookJob(PublisherSlack), job);
    WhenCount(f.discord, WebhookJob(PublisherDiscord), job);
    WhenCount(|f.phones| > 0, SmsJob(f.phones), job);
  }

  /** The plan calls `sms` once, with the whole phone list, when there are phones, never otherwise. */
  lemma PlanSmsCalls(f: Fanout)
    ensures multiset(Plan(f))[SmsJob(f.phones)] == if |f.phones| > 0 then 1 else 0
  {
    var job := SmsJob(f.phones);
    PlanCount(f, job);
    EmailJobsCount(f.emails, job);
    OtherJobsCount(f, job);
    WhenCount(f.line, LineJob, job);
    WhenCount(f.team, WebhookJob(PublisherTeams), job);
    WhenCount(f.slack, WebhookJob(PublisherSlack), job);
    WhenCount(f.discord, WebhookJob(PublisherDiscord), job);
    WhenCount(|f.phones| > 0, SmsJob(f.phones), job);
  }

  /**
   * A resolved contact set requests Line (or Teams, Slack, Discord) exactly when some
   * contact's mask has that bit, and the plan then calls that sender once.
   */
  lemma ChannelRequestedIffEnabled(contacts: seq<EmployeeContact>)
    ensures multiset(Plan(Aggregate(contacts)))[LineJob] == 1 <==> AnyEnables(contacts, Line)
    ensures multiset(Plan(Aggregate(contacts)))[WebhookJob(PublisherTeams)] == 1 <==> AnyEnables(contacts, Teams)
    ensures multiset(Plan(Aggregate(contacts)))[WebhookJob(PublisherSlack)] == 1 <==> AnyEnables(contacts, Slack)
    ensures multiset(Plan(Aggregate(contacts)))[WebhookJob(PublisherDiscord)] == 1 <==> AnyEnables(contacts, Discord)
  {
    var f := Aggregate(contacts);
    PlanLineCalls(f);
    PlanTeamsCalls(f);
    PlanSlackCalls(f);
    PlanDiscordCalls(f);
  }

  /**
   * A contact with mask Email + SMS (33), an address and a phone gets exactly one email call
   * and one SMS call, and no Line or webhook call.
   */
  lemma EmailAndSmsContact(directory: seq<EmployeeContact>, c: EmployeeContact)
    requires directory == [c] && c.no == "E001" && c.contactWay == PublisherEmail + PublisherSms
    requires c.email == Some("a@x.com") && c.phone == Some("555-1111")
    ensures Plan(Aggregate(Resolve(directory, ["E001"]))) == [EmailJob(["a@x.com"]), SmsJob(["555-1111"])]
  {
    var contacts := Resolve(directory, ["E001"]);
    assert contacts == [c];
    assert contacts[..0] == [];
    assert EmailsOf(contacts) == ["a@x.com"];
    assert PhonesOf(contacts) == ["555-1111"];
  }

  // ---------------------------------------------------------------------------------
  // Retry schedules

  lemma {:induction false} Pow2Increasing(a: nat, b: nat)
    requires a < b
    ensures Pow2(a) < Pow2(b)
  {
    if b > a + 1 {
      Pow2Increasing(a, b - 1);
    }
  }

  /** Backoff sleeps strictly increase. */
  lemma BackoffIncreasing(count: nat, first: nat)
    ensures forall i, j :: 0 <= i < j < count ==> Backoff(count, first)[i] < Backoff(count, first)[j]
  {
    forall i, j | 0 <= i < j < count
      ensures Backoff(count, first)[i] < Backoff(count, first)[j]
    {
      Pow2Increasing(first + i, first + j);
    }
  }

  /**
   * `send_email` makes one to three attempts, sleeps only between two of them (2 s, then
   * 4 s), and after three failures has slept exactly 2 s and 4 s.
   */
  lemma EmailSchedule(replies: seq<Reply>)
    requires |replies| == MaxRetries
    ensures var d := FirstDelivered(replies, AcceptSmtp);
      && 1 <= EmailTries(d) <= MaxRetries
      && |EmailSleeps(d)| == EmailTries(d) - 1
      && (forall i :: 0 <= i < |EmailSleeps(d)| ==> EmailSleeps(d)[i] == Pow2(i + 1))
      && (d.None? ==> EmailTries(d) == MaxRetries && EmailSleeps(d) == [2, 4])
  {
  }

  /**
   * The record of `send_email`: Success exactly when one of the three attempts went
   * through, with the index of the first such attempt as retry count; otherwise Failed,
   * retry count 3 and the third attempt's error.
   */
  lemma EmailRecordOutcome(to: seq<string>, logId: Option<int>, replies: seq<Reply>)
    requires |replies| == MaxRetries
    ensures var rec := EmailRecord(to, logId, replies);
      && rec.logId == logId && rec.recipient == Join(to, ", ")
      && (rec.status == Success <==> exists k :: 0 <= k < MaxRetries && SmtpOk(replies[k]))
      && (rec.status == Success ==>
            var k := rec.retryCount;
            0 <= k < MaxRetries && SmtpOk(replies[k]) && forall j :: 0 <= j < k ==> !SmtpOk(replies[j]))
      && (rec.status != Success ==>
            rec.status == Failed && rec.retryCount == MaxRetries && rec.errorMessage == LastError(replies))
  {
  }

  /**
   * `send_line` and `webhook` with `n >= 1` retries: at most `n` attempts, all of them when
   * none is accepted, and a sleep between two attempts only (1 s, 2 s, 4 s, ...).
   */
  lemma HttpSchedule(replies: seq<Reply>, ok: Acceptance, n: nat)
    requires |replies| == n && n >= 1
    ensures var d := FirstDelivered(replies, ok);
      && 1 <= HttpTries(d, n) <= n
      && (d.None? ==> HttpTries(d, n) == n)
      && |HttpSleeps(d, n)| == HttpTries(d, n) - 1
      && forall i :: 0 <= i < |HttpSleeps(d, n)| ==> HttpSleeps(d, n)[i] == Pow2(i)
  {
  }

  /**
   * The record of `send_line`: Success with the index of the first HTTP 200 reply, where
   * the loop returns, when there is one; otherwise Failed with retry count `max_retries` and the last error.
   */
  lemma LineRecordOutcome(logId: Option<int>, maxRetries: int, replies: seq<Reply>)
    requires |replies| == Retries(maxRetries)
    ensures var rec := LineRecord(logId, maxRetries, replies);
      && rec.recipient == LineRecipient && rec.logId == logId
      && (rec.status == Success <==> exists k :: 0 <= k < |replies| && replies[k].Answered? && replies[k].code == 200)
      && (rec.status == Success ==>
            && rec.retryCount < |replies| && LineOk(replies[rec.retryCount])
            && forall j :: 0 <= j < rec.retryCount ==> !LineOk(replies[j]))
      && (rec.status != Success ==> rec.status == Failed && rec.retryCount == maxRetries
                                    && rec.errorMessage == LastError(replies))
  {
    var d := FirstDelivered(replies, AcceptLine);
    if d.None? {
      forall k | 0 <= k < |replies|
        ensures !(replies[k].Answered? && replies[k].code == 200)
      {
        assert !LineOk(replies[k]);
      }
    }
  }

  /**
   * The record of `webhook`: Success with the index of the first HTTP 200 or 204 reply,
   * where the loop returns, when there is one; otherwise Failed with retry count `max_retries` and the last error.
   */
  lemma WebhookRecordOutcome(name: string, logId: Option<int>, maxRetries: int, replies: seq<Reply>)
    requires |replies| == Retries(maxRetries)
    ensures var rec := WebhookRecord(name, logId, maxRetries, replies);
      && rec.recipient == name && rec.logId == logId
      && (rec.status == Success <==>
            exists k :: 0 <= k < |replies| && replies[k].Answered? && replies[k].code in {200, 204})
      && (rec.status == Success ==>
            && rec.retryCount < |replies| && WebhookOk(replies[rec.retryCount])
            && forall j :: 0 <= j < rec.retryCount ==> !WebhookOk(replies[j]))
      && (rec.status != Success ==> rec.status == Failed && rec.retryCount == maxRetries
                                    && rec.errorMessage == LastError(replies))
  {
    var d := FirstDelivered(replies, AcceptWebhook);
    if d.None? {
      forall k | 0 <= k < |replies|
        ensures !(replies[k].Answered? && replies[k].code in {200, 204})
      {
        assert !WebhookOk(replies[k]);
      }
    }
  }

  // ---------------------------------------------------------------------------------
  // SMS

  /** Every phone is counted once: delivered plus failed is the number of phones. */
  lemma {:induction false} SmsCountsAddUp(phones: seq<string>, replies: seq<Reply>)
    requires |replies| == |phones|
    ensures SuccessCount(replies) + |FailedPhones(phones, replies)| == |phones|
  {
    if phones != [] {
      SmsCountsAddUp(phones[..|phones| - 1], replies[..|replies| - 1]);
    }
  }

  /** The delivered count reaches the number of replies exactly when all were delivered. */
  lemma {:induction false} SmsAllDelivered(replies: seq<Reply>)
    ensures SuccessCount(replies) <= |replies|
    ensures SuccessCount(replies) == |replies| <==> forall i :: 0 <= i < |replies| ==> SmtpOk(replies[i])
  {
    if replies != [] {
      var init := replies[..|replies| - 1];
      SmsAllDelivered(init);
      assert forall i :: 0 <= i < |init| ==> init[i] == replies[i];
    }
  }

  /** The delivered count is positive exactly when some reply was delivered. */
  lemma {:induction false} SmsSomeDelivered(replies: seq<Reply>)
    ensures SuccessCount(replies) > 0 <==> exists i :: 0 <= i < |replies| && SmtpOk(replies[i])
  {
    if replies != [] {
      var init := replies[..|replies| - 1];
      SmsSomeDelivered(init);
      assert forall i :: 0 <= i < |init| ==> init[i] == replies[i];
    }
  }

  /** The failed list names exactly the phones whose submission failed. */
  lemma {:induction false} FailedPhonesMeaning(phones: seq<string>, replies: seq<Reply>)
    requires |replies| == |phones|
    ensures forall p :: p in FailedPhones(phones, replies) <==>
      exists i :: 0 <= i < |phones| && phones[i] == p && !SmtpOk(replies[i])
  {
    if phones != [] {
      var n := |phones| - 1;
      FailedPhonesMeaning(phones[..n], replies[..n]);
      assert forall i :: 0 <= i < n ==> phones[..n][i] == phones[i] && replies[..n][i] == replies[i];
    }
  }

  /**
   * The record of `sms`: Success exactly when there are phones and every one went through;
   * a partial failure is Failed and lists the failed phones; no success at all is Failed
   * with the "all failed" text. `sms` returns True exactly when some phone went through.
   */
  lemma SmsRecordOutcome(phones: seq<string>, logId: Option<int>, replies: seq<Reply>)
    requires |replies| == |phones|
    ensures var rec := SmsRecord(phones, logId, replies);
      && rec.recipient == Join(phones, ", ") && rec.retryCount == 0
      && (rec.status == Success <==> |phones| > 0 && forall i :: 0 <= i < |phones| ==> SmtpOk(replies[i]))
      && (rec.status != Success ==> rec.status == Failed)
      && (((exists i :: 0 <= i < |phones| && SmtpOk(replies[i])) && (exists i :: 0 <= i < |phones| && !SmtpOk(replies[i])))
          ==> rec.errorMessage == Some("部分失敗: " + Join(FailedPhones(phones, replies), ", ")))
      && ((forall i :: 0 <= i < |phones| ==> !SmtpOk(replies[i])) ==> rec.errorMessage == Some("所有收件者發送失敗"))
  {
    SmsAllDelivered(replies);
    SmsSomeDelivered(replies);
    SmsCountsAddUp(phones, replies);
    FailedPhonesMeaning(phones, replies);
    if (exists i :: 0 <= i < |phones| && SmtpOk(replies[i])) && (exists i :: 0 <= i < |phones| && !SmtpOk(replies[i])) {
      var i :| 0 <= i < |phones| && !SmtpOk(replies[i]);
      assert phones[i] in FailedPhones(phones, replies);
    }
  }
}
