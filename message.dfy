/**
 * Notification fanout and the channel senders (app/message.py): contact aggregation in
 * `send_message`, the retry loops of `send_email`, `send_line` and `webhook`, and the
 * per-phone loop of `sms`. Each sender hands exactly one record to the history store.
 */
module Messaging {
  import opened Wrappers
  import opened Text
  import opened Constants
  import opened Records
  import opened Transport
  import opened Notification

  /** The settings the senders read: token, webhook URLs and SMS gateway ("" when unset). */
  datatype Config = Config(lineToken: string, teamsUrl: string, slackUrl: string,
                           discordUrl: string, smsGateway: string)

  const LineUrl: string := "https://notify-api.line.me/api/notify"
  const LineRecipient: string := "Line Notify"
  /** `max_retries` of `send_email`, and the default of `send_line` and `webhook`. */
  const MaxRetries: nat := 3

  // ---------------------------------------------------------------------------------
  // Contact resolution and aggregation

  /** The contact rows whose `no` is one of `employees` (`no in employees`), in table order. */
  function Resolve(directory: seq<EmployeeContact>, employees: seq<string>): (r: seq<EmployeeContact>)
    ensures forall c :: c in r ==> c in directory && c.no in employees
    ensures forall c :: c in directory && c.no in employees ==> c in r
  {
    if directory == [] then []
    else (if directory[0].no in employees then [directory[0]] else []) + Resolve(directory[1..], employees)
  }

  /** The email addresses collected by the aggregation loop: present emails of Email-enabled contacts. */
  function EmailsOf(contacts: seq<EmployeeContact>): seq<string>
  {
    if contacts == [] then []
    else
      var c := contacts[|contacts| - 1];
      EmailsOf(contacts[..|contacts| - 1]) + (if Enabled(c.contactWay, Email) && Present(c.email) then [c.email.value] else [])
  }

  /** The phone numbers collected by the aggregation loop: present phones of SMS-enabled contacts. */
  function PhonesOf(contacts: seq<EmployeeContact>): seq<string>
  {
    if contacts == [] then []
    else
      var c := contacts[|contacts| - 1];
      PhonesOf(contacts[..|contacts| - 1]) + (if Enabled(c.contactWay, Sms) && Present(c.phone) then [c.phone.value] else [])
  }

  /** Some contact enables `ch`. */
  predicate AnyEnables(contacts: seq<EmployeeContact>, ch: Channel) {
    exists i :: 0 <= i < |contacts| && Enabled(contacts[i].contactWay, ch)
  }

  /** What the aggregation loop of `send_message` computes. */
  datatype Fanout = Fanout(emails: seq<string>, line: bool, team: bool, slack: bool,
                           discord: bool, phones: seq<string>)

  function Aggregate(contacts: seq<EmployeeContact>): Fanout {
    Fanout(EmailsOf(contacts), AnyEnables(contacts, Line), AnyEnables(contacts, Teams),
           AnyEnables(contacts, Slack), AnyEnables(contacts, Discord), PhonesOf(contacts))
  }

  function EmailJobs(emails: seq<string>): seq<Job>
  {
    seq(|emails|, i requires 0 <= i < |emails| => EmailJob([emails[i]]))
  }

  /** The sender calls `send_message` makes for an aggregation, in order. */
  function Plan(f: Fanout): seq<Job> {
    EmailJobs(f.emails) + OtherJobs(f)
  }

  /** The calls after the emails: Line, Teams, Slack, Discord and SMS, each when requested. */
  function OtherJobs(f: Fanout): seq<Job> {
    When(f.line, LineJob) + When(f.team, WebhookJob(PublisherTeams)) + When(f.slack, WebhookJob(PublisherSlack))
    + When(f.discord, WebhookJob(PublisherDiscord)) + When(|f.phones| > 0, SmsJob(f.phones))
  }

  function When(b: bool, j: Job): seq<Job> {
    if b then [j] else []
  }

  /** The webhook name of a `PUBLISHER_*` type; None for the types `webhook` rejects. */
  function WebhookName(kind: int): Option<string> {
    if kind == PublisherTeams then Some("Teams")
    else if kind == PublisherSlack then Some("Slack")
    else if kind == PublisherDiscord then Some("Discord")
    else None
  }

  function WebhookChannel(kind: int): Channel {
    if kind == PublisherTeams then Teams else if kind == PublisherSlack then Slack else Discord
  }

  function WebhookUrl(cfg: Config, kind: int): string {
    if kind == PublisherTeams then cfg.teamsUrl
    else if kind == PublisherSlack then cfg.slackUrl
    else cfg.discordUrl
  }

  /** The recipient a sender call records its history under. */
  function Recipient(j: Job): string {
    match j
    case EmailJob(to) => Join(to, ", ")
    case LineJob => LineRecipient
    case WebhookJob(kind) => WebhookName(kind).GetOr("")
    case SmsJob(phones) => Join(phones, ", ")
  }

  /** History records `reqs` answer sender calls `jobs` one to one, under `logId` and the job's recipient. */
  ghost predicate Reports(reqs: seq<NotificationHistory>, jobs: seq<Job>, logId: Option<int>) {
    |reqs| == |jobs| &&
    forall i :: 0 <= i < |jobs| ==> reqs[i].logId == logId && reqs[i].recipient == Recipient(jobs[i])
  }

  /** The one record written when no contact is found. */
  function NoContactsRecord(message: Message, logId: Option<int>): NotificationHistory {
    var error := "找不到員工聯絡資訊: " + ListRepr(message.employees);
    NotificationHistory(None, logId, Join(message.employees, ", "), error, Failed, Some(error), 0, None)
  }

  /** The record a sender writes when its token, URL or gateway is not configured. */
  function ConfigMissingRecord(logId: Option<int>, recipient: string, error: string): NotificationHistory {
    NotificationHistory(None, logId, recipient, error, Failed, Some(error), 0, None)
  }

  // ---------------------------------------------------------------------------------
  // Replies and retries

  /**
   * An SMTP submission (an email, or an SMS through the gateway) succeeds once the server
   * answers; `send_line` needs HTTP 200; a webhook needs 200 or 204.
   */
  predicate SmtpOk(r: Reply) { r.Answered? }
  predicate LineOk(r: Reply) { r.Answered? && r.code == 200 }
  predicate WebhookOk(r: Reply) { r.Answered? && (r.code == 200 || r.code == 204) }

  /** Which replies a retry loop accepts: any SMTP answer, HTTP 200 (Line), HTTP 200 or 204 (webhooks). */
  datatype Acceptance = AcceptSmtp | AcceptLine | AcceptWebhook

  predicate Ok(a: Acceptance, r: Reply) {
    match a
    case AcceptSmtp => SmtpOk(r)
    case AcceptLine => LineOk(r)
    case AcceptWebhook => WebhookOk(r)
  }

  /** The `error_msg` a failed attempt leaves: status code and text, or the exception's text. */
  function ErrorText(r: Reply): string {
    match r
    case Raised(e) => e
    case Answered(code, text) => "狀態碼: " + IntToString(code) + ", 回應: " + text
  }

  /** The error of the last of `replies`, or None when there were none. */
  function LastError(replies: seq<Reply>): Option<string> {
    if replies == [] then None else Some(ErrorText(replies[|replies| - 1]))
  }

  /** The index of the first reply that counts as delivered. */
  function FirstDelivered(replies: seq<Reply>, ok: Acceptance): (r: Option<nat>)
    ensures r.Some? ==> r.value < |replies| && Ok(ok, replies[r.value])
    ensures r.Some? ==> forall j :: 0 <= j < r.value ==> !Ok(ok, replies[j])
    ensures r.None? ==> forall j :: 0 <= j < |replies| ==> !Ok(ok, replies[j])
  {
    if replies == [] then None
    else if Ok(ok, replies[0]) then Some(0)
    else match FirstDelivered(replies[1..], ok)
      case Some(k) => Some(k + 1)
      case None => None
  }

  /** The first accepted reply is the one after a run of rejected ones. */
  lemma {:induction false} FirstDeliveredAt(replies: seq<Reply>, ok: Acceptance, k: nat)
    requires k < |replies| && Ok(ok, replies[k])
    requires forall j :: 0 <= j < k ==> !Ok(ok, replies[j])
    ensures FirstDelivered(replies, ok) == Some(k)
  {
    if k > 0 {
      FirstDeliveredAt(replies[1..], ok, k - 1);
    }
  }

  function Pow2(n: nat): (p: nat)
    ensures p >= 1
  {
    if n == 0 then 1 else 2 * Pow2(n - 1)
  }

  /** `count` backoff sleeps, `2^first`, `2^(first+1)`, ... */
  function Backoff(count: nat, first: nat): (s: seq<nat>)
    ensures |s| == count && forall i :: 0 <= i < count ==> s[i] == Pow2(first + i)
  {
    if count == 0 then [] else Backoff(count - 1, first) + [Pow2(first + count - 1)]
  }

  /** Attempts `send_email` makes: up to the first delivery, at most `MaxRetries`. */
  function EmailTries(d: Option<nat>): nat {
    if d.Some? then d.value + 1 else MaxRetries
  }

  /** Sleeps of `send_email`: `2^n` after the n-th failure while `n < MaxRetries`. */
  function EmailSleeps(d: Option<nat>): seq<nat> {
    Backoff(if d.Some? then d.value else MaxRetries - 1, 1)
  }

  /** Attempts of `send_line`/`webhook` with `n` retries allowed. */
  function HttpTries(d: Option<nat>, n: nat): nat {
    if d.Some? then d.value + 1 else n
  }

  /** Sleeps of `send_line`/`webhook`: `2^attempt` after a failed attempt that is not the last. */
  function HttpSleeps(d: Option<nat>, n: nat): seq<nat> {
    Backoff(if d.Some? then d.value else if n == 0 then 0 else n - 1, 0)
  }

  /** `max_retries` as `range(max_retries)` sees it. */
  function Retries(maxRetries: int): nat {
    if maxRetries < 0 then 0 else maxRetries
  }

  /** The record `send_email` writes for the replies of its three attempts. */
  function EmailRecord(to: seq<string>, logId: Option<int>, replies: seq<Reply>): NotificationHistory
    requires |replies| == MaxRetries
  {
    var recipient := Join(to, ", ");
    match FirstDelivered(replies, AcceptSmtp)
    case Some(k) =>
      NotificationHistory(None, logId, recipient, "Email 已發送！收件者: " + recipient, Success, None, k, None)
    case None =>
      NotificationHistory(None, logId, recipient, "Email 發送失敗 (嘗試 " + IntToString(MaxRetries) + " 次)",
                          Failed, LastError(replies), MaxRetries, None)
  }

  /** The record `send_line` writes after trying; the failure text says "Email", as the source does. */
  function LineRecord(logId: Option<int>, maxRetries: int, replies: seq<Reply>): NotificationHistory
  {
    match FirstDelivered(replies, AcceptLine)
    case Some(k) =>
      NotificationHistory(None, logId, LineRecipient, "Line 訊息已發送", Success, None, k, None)
    case None =>
      NotificationHistory(None, logId, LineRecipient, "Email 發送失敗 (嘗試 " + IntToString(maxRetries) + " 次)",
                          Failed, LastError(replies), maxRetries, None)
  }

  /** The record `webhook` writes after trying, for the channel named `name`. */
  function WebhookRecord(name: string, logId: Option<int>, maxRetries: int, replies: seq<Reply>): NotificationHistory
  {
    match FirstDelivered(replies, AcceptWebhook)
    case Some(k) =>
      NotificationHistory(None, logId, name, name + " 訊息已發送！", Success, None, k, None)
    case None =>
      NotificationHistory(None, logId, name, name + " 發送失敗 (嘗試 " + IntToString(maxRetries) + " 次)",
                          Failed, LastError(replies), maxRetries, None)
  }

  // ---------------------------------------------------------------------------------
  // SMS

  /** Phones whose SMS got through, given one reply per phone. */
  function SuccessCount(replies: seq<Reply>): nat
  {
    if replies == [] then 0
    else SuccessCount(replies[..|replies| - 1]) + (if SmtpOk(replies[|replies| - 1]) then 1 else 0)
  }

  /** Phones whose SMS failed, in order, given one reply per phone. */
  function FailedPhones(phones: seq<string>, replies: seq<Reply>): seq<string>
    requires |replies| == |phones|
  {
    if phones == [] then []
    else FailedPhones(phones[..|phones| - 1], replies[..|replies| - 1])
         + (if SmtpOk(replies[|replies| - 1]) then [] else [phones[|phones| - 1]])
  }

  function SmsAttempts(phones: seq<string>, gateway: string): seq<Attempt>
  {
    seq(|phones|, i requires 0 <= i < |phones| => Attempt(Sms, phones[i] + "@" + gateway))
  }

  /** The record `sms` writes after trying every phone once. */
  function SmsRecord(phones: seq<string>, logId: Option<int>, replies: seq<Reply>): NotificationHistory
    requires |replies| == |phones|
  {
    var joined := Join(phones, ", ");
    var delivered := SuccessCount(replies);
    var failed := FailedPhones(phones, replies);
    if delivered > 0 then
      NotificationHistory(None, logId, joined, "簡訊已發送至 " + joined,
                          if delivered == |phones| then Success else Failed,
                          if failed != [] then Some("部分失敗: " + Join(failed, ", ")) else None, 0, None)
    else
      NotificationHistory(None, logId, joined, "簡訊發送失敗至 " + joined, Failed, Some("所有收件者發送失敗"), 0, None)
  }

  // ---------------------------------------------------------------------------------
  // The store writes of one sender call

  /** `h` received exactly `rec` since the old state, and its table is `Reconcile` of the old one. */
  twostate predicate SavedOnce(h: HistoryStore, rec: NotificationHistory, now: string)
    reads h
  {
    && old(StoredRows(h.rows, h.nextId))
    && h.online == old(h.online)
    && h.requests == old(h.requests) + [rec]
    && (h.rows, h.nextId) == Reconcile(old(h.rows), old(h.nextId), old(h.online), rec, now)
  }

  /** Nothing reached the network since the old state. */
  twostate predicate Quiet(t: Network)
    reads t
  {
    t.used == old(t.used) && t.attempts == old(t.attempts) && t.sleeps == old(t.sleeps)
  }

  // ---------------------------------------------------------------------------------
  // Senders

  /**
   * `send_email`: up to `MaxRetries` SMTP submissions to `to`, sleeping `2^n` after the
   * n-th failure while another attempt follows; one history record either way.
   */
  method SendEmail(h: HistoryStore, t: Network, to: seq<string>, subject: string, body: string,
                   html: bool, logId: Option<int>, now: string) returns (sent: bool)
    requires h.Valid()
    modifies h, t
    ensures h.Valid()
    ensures var replies := Window(t.answer, old(t.used), MaxRetries);
      var d := FirstDelivered(replies, AcceptSmtp);
      && sent == d.Some?
      && t.used == old(t.used) + EmailTries(d)
      && t.attempts == old(t.attempts) + Repeat(Attempt(Email, Join(to, ", ")), EmailTries(d))
      && t.sleeps == old(t.sleeps) + EmailSleeps(d)
      && SavedOnce(h, EmailRecord(to, logId, replies), now)
    ensures t.dispatched == old(t.dispatched) + [EmailJob(to)] && t.messages == old(t.messages)
  {
    t.dispatched := t.dispatched + [EmailJob(to)];
    ghost var replies := Window(t.answer, t.used, MaxRetries);
    var target := Attempt(Email, Join(to, ", "));
    var errorMsg: Option<string> := None;
    var retryCount := 0;
    var attempt := 0;
    while attempt < MaxRetries
      invariant 0 <= attempt <= MaxRetries && retryCount == attempt
      invariant t.used == old(t.used) + attempt
      invariant forall j :: 0 <= j < attempt ==> !SmtpOk(replies[j])
      invariant t.attempts == old(t.attempts) + Repeat(target, attempt)
      invariant t.sleeps == old(t.sleeps) + Backoff(if attempt < MaxRetries then attempt else MaxRetries - 1, 1)
      invariant errorMsg == LastError(replies[..attempt])
      invariant t.dispatched == old(t.dispatched) + [EmailJob(to)] && t.messages == old(t.messages)
      invariant h.rows == old(h.rows) && h.nextId == old(h.nextId) && h.online == old(h.online)
      invariant h.requests == old(h.requests)
    {
      var r := t.Deliver(target);
      if SmtpOk(r) {
        var rec := NotificationHistory(None, logId, Join(to, ", "), "Email 已發送！收件者: " + Join(to, ", "),
                                       Success, None, retryCount, None);
        FirstDeliveredAt(replies, AcceptSmtp, attempt);
        var _ := h.Save(rec, now);
        return true;
      }
      retryCount := attempt + 1;
      errorMsg := Some(ErrorText(r));
      assert replies[..attempt + 1] == replies[..attempt] + [r];
      if retryCount < MaxRetries {
        t.Sleep(Pow2(retryCount));
      }
      attempt := attempt + 1;
    }
    assert replies[..MaxRetries] == replies;
    var rec := NotificationHistory(None, logId, Join(to, ", "), "Email 發送失敗 (嘗試 " + IntToString(MaxRetries) + " 次)",
                                   Failed, errorMsg, retryCount, None);
    var _ := h.Save(rec, now);
    sent := false;
  }

  /**
   * The retry loop shared by `send_line` and `webhook`: up to `maxRetries` POSTs, stopping at
   * the first reply `ok` accepts, sleeping `2^attempt` after a failure that is not the last.
   */
  method PostWithRetry(t: Network, target: Attempt, ok: Acceptance, maxRetries: int)
    returns (delivered: Option<nat>, lastError: Option<string>)
    modifies t
    ensures var n := Retries(maxRetries);
      var replies := Window(t.answer, old(t.used), n);
      && delivered == FirstDelivered(replies, ok)
      && (delivered.None? ==> lastError == LastError(replies))
      && t.used == old(t.used) + HttpTries(delivered, n)
      && t.attempts == old(t.attempts) + Repeat(target, HttpTries(delivered, n))
      && t.sleeps == old(t.sleeps) + HttpSleeps(delivered, n)
    ensures t.dispatched == old(t.dispatched) && t.messages == old(t.messages)
  {
    ghost var n := Retries(maxRetries);
    ghost var replies := Window(t.answer, t.used, n);
    delivered, lastError := None, None;
    var attempt := 0;
    while attempt < maxRetries
      invariant 0 <= attempt <= n
      invariant t.used == old(t.used) + attempt
      invariant forall j :: 0 <= j < attempt ==> !Ok(ok, replies[j])
      invariant t.attempts == old(t.attempts) + Repeat(target, attempt)
      invariant t.sleeps == old(t.sleeps) + Backoff(if attempt < n || n == 0 then attempt else n - 1, 0)
      invariant lastError == if attempt == 0 then None else Some(ErrorText(replies[attempt - 1]))
      invariant delivered == None
      invariant t.dispatched == old(t.dispatched) && t.messages == old(t.messages)
    {
      var r := t.Deliver(target);
      RepeatStep(target, attempt);
      assert r == replies[attempt];
      if Ok(ok, r) {
        delivered := Some(attempt);
        FirstDeliveredAt(replies, ok, attempt);
        return;
      }
      lastError := Some(ErrorText(r));
      if attempt < maxRetries - 1 {
        t.Sleep(Pow2(attempt));
      }
      attempt := attempt + 1;
    }
  }

  /** `send_line`: without a token, one failure record and no attempt; otherwise the retry loop. */
  method SendLine(h: HistoryStore, t: Network, cfg: Config, message: string, maxRetries: int,
                  logId: Option<int>, now: string) returns (sent: bool)
    requires h.Valid()
    modifies h, t
    ensures h.Valid()
    ensures cfg.lineToken == "" ==>
      && !sent && Quiet(t)
      && SavedOnce(h, ConfigMissingRecord(logId, LineRecipient, "Line Token 未設定，跳過發送"), now)
    ensures cfg.lineToken != "" ==>
      var n := Retries(maxRetries);
      var replies := Window(t.answer, old(t.used), n);
      var d := FirstDelivered(replies, AcceptLine);
      && sent == d.Some?
      && t.used == old(t.used) + HttpTries(d, n)
      && t.attempts == old(t.attempts) + Repeat(Attempt(Line, LineUrl), HttpTries(d, n))
      && t.sleeps == old(t.sleeps) + HttpSleeps(d, n)
      && SavedOnce(h, LineRecord(logId, maxRetries, replies), now)
    ensures t.dispatched == old(t.dispatched) + [LineJob] && t.messages == old(t.messages)
  {
    t.dispatched := t.dispatched + [LineJob];
    if cfg.lineToken == "" {
      var error := "Line Token 未設定，跳過發送";
      var _ := h.Save(NotificationHistory(None, logId, LineRecipient, error, Failed, Some(error), 0, None), now);
      return false;
    }
    ghost var replies := Window(t.answer, t.used, Retries(maxRetries));
    var delivered, lastError := PostWithRetry(t, Attempt(Line, LineUrl), AcceptLine, maxRetries);
    var rec;
    if delivered.Some? {
      rec := NotificationHistory(None, logId, LineRecipient, "Line 訊息已發送", Success, None, delivered.value, None);
    } else {
      rec := NotificationHistory(None, logId, LineRecipient, "Email 發送失敗 (嘗試 " + IntToString(maxRetries) + " 次)",
                                 Failed, lastError, maxRetries, None);
    }
    assert rec == LineRecord(logId, maxRetries, replies);
    var _ := h.Save(rec, now);
    sent := delivered.Some?;
  }

  /**
   * `webhook`: Teams, Slack or Discord by `kind`; any other kind returns False with no
   * record; without a URL, one failure record and no attempt; otherwise the retry loop.
   */
  method Webhook(h: HistoryStore, t: Network, cfg: Config, kind: int, message: string,
                 logId: Option<int>, maxRetries: int, now: string) returns (sent: bool)
    requires h.Valid()
    modifies h, t
    ensures h.Valid()
    ensures WebhookName(kind).None? ==>
      !sent && Quiet(t) && h.requests == old(h.requests) && h.rows == old(h.rows) && h.nextId == old(h.nextId)
    ensures WebhookName(kind).Some? && WebhookUrl(cfg, kind) == "" ==>
      var name := WebhookName(kind).value;
      && !sent && Quiet(t)
      && SavedOnce(h, ConfigMissingRecord(logId, name, name + " URL 未設定，跳過發送"), now)
    ensures WebhookName(kind).Some? && WebhookUrl(cfg, kind) != "" ==>
      var n := Retries(maxRetries);
      var replies := Window(t.answer, old(t.used), n);
      var d := FirstDelivered(replies, AcceptWebhook);
      var target := Attempt(WebhookChannel(kind), WebhookUrl(cfg, kind));
      && sent == d.Some?
      && t.used == old(t.used) + HttpTries(d, n)
      && t.attempts == old(t.attempts) + Repeat(target, HttpTries(d, n))
      && t.sleeps == old(t.sleeps) + HttpSleeps(d, n)
      && SavedOnce(h, WebhookRecord(WebhookName(kind).value, logId, maxRetries, replies), now)
    ensures t.dispatched == old(t.dispatched) + [WebhookJob(kind)] && t.messages == old(t.messages)
  {
    t.dispatched := t.dispatched + [WebhookJob(kind)];
    var name, url, channel;
    if kind == PublisherTeams {
      name, url, channel := "Teams", cfg.teamsUrl, Teams;
    } else if kind == PublisherSlack {
      name, url, channel := "Slack", cfg.slackUrl, Slack;
    } else if kind == PublisherDiscord {
      name, url, channel := "Discord", cfg.discordUrl, Discord;
    } else {
      return false;
    }
    if url == "" {
      var error := name + " URL 未設定，跳過發送";
      var _ := h.Save(NotificationHistory(None, logId, name, error, Failed, Some(error), 0, None), now);
      return false;
    }
    ghost var replies := Window(t.answer, t.used, Retries(maxRetries));
    var delivered, lastError := PostWithRetry(t, Attempt(channel, url), AcceptWebhook, maxRetries);
    var rec;
    if delivered.Some? {
      rec := NotificationHistory(None, logId, name, name + " 訊息已發送！", Success, None, delivered.value, None);
    } else {
      rec := NotificationHistory(None, logId, name, name + " 發送失敗 (嘗試 " + IntToString(maxRetries) + " 次)",
                                 Failed, lastError, maxRetries, None);
    }
    assert rec == WebhookRecord(name, logId, maxRetries, replies);
    var _ := h.Save(rec, now);
    sent := delivered.Some?;
  }

  /** One more phone extends the count, the failed list and the attempts by that phone's outcome. */
  lemma SmsStep(phones: seq<string>, replies: seq<Reply>, gateway: string, i: nat)
    requires i < |phones| == |replies|
    ensures SuccessCount(replies[..i + 1]) == SuccessCount(replies[..i]) + (if SmtpOk(replies[i]) then 1 else 0)
    ensures FailedPhones(phones[..i + 1], replies[..i + 1])
         == FailedPhones(phones[..i], replies[..i]) + (if SmtpOk(replies[i]) then [] else [phones[i]])
    ensures SmsAttempts(phones[..i + 1], gateway) == SmsAttempts(phones[..i], gateway) + [Attempt(Sms, phones[i] + "@" + gateway)]
  {
    assert replies[..i + 1][..i] == replies[..i] && phones[..i + 1][..i] == phones[..i];
  }

  /** The per-phone loop of `sms`: one submission to `phone@gateway` each, counting the ones that went through. */
  method SubmitEach(t: Network, phones: seq<string>, gateway: string) returns (successCount: nat, failedPhones: seq<string>)
    modifies t
    ensures var replies := Window(t.answer, old(t.used), |phones|);
      && successCount == SuccessCount(replies)
      && failedPhones == FailedPhones(phones, replies)
    ensures t.used == old(t.used) + |phones| && t.attempts == old(t.attempts) + SmsAttempts(phones, gateway)
    ensures t.sleeps == old(t.sleeps) && t.dispatched == old(t.dispatched) && t.messages == old(t.messages)
  {
    ghost var replies := Window(t.answer, t.used, |phones|);
    successCount, failedPhones := 0, [];
    for i := 0 to |phones|
      invariant t.used == old(t.used) + i
      invariant t.attempts == old(t.attempts) + SmsAttempts(phones[..i], gateway)
      invariant successCount == SuccessCount(replies[..i])
      invariant failedPhones == FailedPhones(phones[..i], replies[..i])
      invariant t.sleeps == old(t.sleeps) && t.dispatched == old(t.dispatched) && t.messages == old(t.messages)
    {
      SmsStep(phones, replies, gateway, i);
      var r := t.Deliver(Attempt(Sms, phones[i] + "@" + gateway));
      assert r == replies[i];
      if SmtpOk(r) {
        successCount := successCount + 1;
      } else {
        failedPhones := failedPhones + [phones[i]];
      }
    }
    assert replies[..|phones|] == replies && phones[..|phones|] == phones;
  }

  /**
   * `sms`: without a gateway, one failure record and no attempt; otherwise one submission
   * per phone to `phone@gateway`, then one record summing up all of them.
   */
  method SendSms(h: HistoryStore, t: Network, cfg: Config, phones: seq<string>, message: string,
             logId: Option<int>, now: string) returns (sent: bool)
    requires h.Valid()
    modifies h, t
    ensures h.Valid()
    ensures cfg.smsGateway == "" ==>
      && !sent && Quiet(t)
      && SavedOnce(h, ConfigMissingRecord(logId, Join(phones, ", "), "SMS Gateway 未設定，跳過發送"), now)
    ensures cfg.smsGateway != "" ==>
      var replies := Window(t.answer, old(t.used), |phones|);
      && sent == (SuccessCount(replies) > 0)
      && t.used == old(t.used) + |phones|
      && t.attempts == old(t.attempts) + SmsAttempts(phones, cfg.smsGateway)
      && t.sleeps == old(t.sleeps)
      && SavedOnce(h, SmsRecord(phones, logId, replies), now)
    ensures t.dispatched == old(t.dispatched) + [SmsJob(phones)] && t.messages == old(t.messages)
  {
    t.dispatched := t.dispatched + [SmsJob(phones)];
    if cfg.smsGateway == "" {
      var error := "SMS Gateway 未設定，跳過發送";
      var _ := h.Save(NotificationHistory(None, logId, Join(phones, ", "), error, Failed, Some(error), 0, None), now);
      return false;
    }
    ghost var replies := Window(t.answer, t.used, |phones|);
    var successCount, failedPhones := SubmitEach(t, phones, cfg.smsGateway);
    var joined := Join(phones, ", ");
    var rec;
    if successCount > 0 {
      rec := NotificationHistory(None, logId, joined, "簡訊已發送至 " + joined,
                                 if successCount == |phones| then Success else Failed,
                                 if failedPhones != [] then Some("部分失敗: " + Join(failedPhones, ", ")) else None,
                                 0, None);
    } else {
      rec := NotificationHistory(None, logId, joined, "簡訊發送失敗至 " + joined, Failed, Some("所有收件者發送失敗"), 0, None);
    }
    var _ := h.Save(rec, now);
    sent := successCount > 0;
  }

  // ---------------------------------------------------------------------------------
  // Fanout

  lemma ReportsAppend(reqs: seq<NotificationHistory>, jobs: seq<Job>, logId: Option<int>,
                      rec: NotificationHistory, job: Job)
    requires Reports(reqs, jobs, logId)
    requires rec.logId == logId && rec.recipient == Recipient(job)
    ensures Reports(reqs + [rec], jobs + [job], logId)
  {
  }

  /** The first `k + 1` elements are the first `k` and then element `k`. */
  lemma TakeStep<T>(s: seq<T>, k: nat)
    requires k < |s|
    ensures s[..k + 1] == s[..k] + [s[k]]
  {
  }

  /** One more contact extends the lists by its own address and phone and sets its channels' flags. */
  lemma AggregateStep(contacts: seq<EmployeeContact>, i: nat)
    requires i < |contacts|
    ensures var pre, c := contacts[..i], contacts[i];
      && EmailsOf(contacts[..i + 1]) == EmailsOf(pre) + (if Enabled(c.contactWay, Email) && Present(c.email) then [c.email.value] else [])
      && PhonesOf(contacts[..i + 1]) == PhonesOf(pre) + (if Enabled(c.contactWay, Sms) && Present(c.phone) then [c.phone.value] else [])
      && forall ch :: AnyEnables(contacts[..i + 1], ch) <==> AnyEnables(pre, ch) || Enabled(c.contactWay, ch)
  {
    var next := contacts[..i + 1];
    assert next[..i] == contacts[..i] && next[i] == contacts[i];
    forall ch
      ensures AnyEnables(next, ch) <==> AnyEnables(contacts[..i], ch) || Enabled(contacts[i].contactWay, ch)
    {
      if AnyEnables(contacts[..i], ch) {
        var j :| 0 <= j < i && Enabled(contacts[..i][j].contactWay, ch);
        assert next[j] == contacts[..i][j];
      }
    }
  }

  /** The aggregation loop of `send_message` over the resolved contacts. */
  method CollectContacts(contacts: seq<EmployeeContact>) returns (f: Fanout)
    ensures f == Aggregate(contacts)
  {
    var emails: seq<string> := [];
    var line, team, slack, discord := false, false, false, false;
    var phones: seq<string> := [];
    for i := 0 to |contacts|
      invariant emails == EmailsOf(contacts[..i]) && phones == PhonesOf(contacts[..i])
      invariant line == AnyEnables(contacts[..i], Line) && team == AnyEnables(contacts[..i], Teams)
      invariant slack == AnyEnables(contacts[..i], Slack) && discord == AnyEnables(contacts[..i], Discord)
    {
      var contact := contacts[i];
      AggregateStep(contacts, i);
      if Enabled(contact.contactWay, Email) && Present(contact.email) {
        emails := emails + [contact.email.value];
      }
      line := line || Enabled(contact.contactWay, Line);
      team := team || Enabled(contact.contactWay, Teams);
      slack := slack || Enabled(contact.contactWay, Slack);
      discord := discord || Enabled(contact.contactWay, Discord);
      if Enabled(contact.contactWay, Sms) && Present(contact.phone) {
        phones := phones + [contact.phone.value];
      }
    }
    assert contacts[..|contacts|] == contacts;
    f := Fanout(emails, line, team, slack, discord, phones);
  }

  /** A sender call `send_message` can make: one address, a supported webhook type. */
  predicate Plannable(j: Job) {
    match j
    case EmailJob(to) => |to| == 1
    case LineJob => true
    case WebhookJob(kind) => WebhookName(kind).Some?
    case SmsJob(phones) => |phones| > 0
  }

  lemma PlanIsPlannable(f: Fanout)
    ensures forall i :: 0 <= i < |Plan(f)| ==> Plannable(Plan(f)[i])
  {
  }

  /** One sender call of the fanout, with `send_message`'s arguments; it leaves exactly one record. */
  method RunJob(h: HistoryStore, t: Network, cfg: Config, job: Job, message: Message,
                logId: Option<int>, now: string)
    requires h.Valid() && Plannable(job)
    modifies h, t
    ensures h.Valid()
    ensures t.dispatched == old(t.dispatched) + [job] && t.messages == old(t.messages)
    ensures |h.requests| == |old(h.requests)| + 1 && h.requests == old(h.requests) + [h.requests[|old(h.requests)|]]
    ensures h.requests[|old(h.requests)|].logId == logId
    ensures h.requests[|old(h.requests)|].recipient == Recipient(job)
    ensures h.online == old(h.online)
    ensures (h.rows, h.nextId) == Reconcile(old(h.rows), old(h.nextId), old(h.online), h.requests[|old(h.requests)|], now)
  {
    var ok;
    match job
    case EmailJob(to) =>
      ok := SendEmail(h, t, to, message.title, message.body, true, logId, now);
    case LineJob =>
      ok := SendLine(h, t, cfg, message.body, MaxRetries, logId, now);
    case WebhookJob(kind) =>
      ok := Webhook(h, t, cfg, kind, message.body, logId, MaxRetries, now);
    case SmsJob(phones) =>
      ok := SendSms(h, t, cfg, phones, message.body, logId, now);
  }

  /** Calls the senders of `plan` one after the other; each leaves one record. */
  method RunPlan(h: HistoryStore, t: Network, cfg: Config, plan: seq<Job>, message: Message,
                 logId: Option<int>, now: string)
    requires h.Valid() && forall i :: 0 <= i < |plan| ==> Plannable(plan[i])
    modifies h, t
    ensures h.Valid()
    ensures t.dispatched == old(t.dispatched) + plan && t.messages == old(t.messages)
    ensures |h.requests| >= |old(h.requests)| && h.requests[..|old(h.requests)|] == old(h.requests)
    ensures Reports(h.requests[|old(h.requests)|..], plan, logId)
    ensures h.online == old(h.online)
    ensures (h.rows, h.nextId) == ReconcileAll(old(h.rows), old(h.nextId), old(h.online), h.requests[|old(h.requests)|..], now)
  {
    ghost var rows0, nextId0 := h.rows, h.nextId;
    ghost var saved: seq<NotificationHistory> := [];
    for k := 0 to |plan|
      invariant h.Valid()
      invariant t.dispatched == old(t.dispatched) + plan[..k] && t.messages == old(t.messages)
      invariant h.requests == old(h.requests) + saved
      invariant Reports(saved, plan[..k], logId)
      invariant h.online == old(h.online)
      invariant (h.rows, h.nextId) == ReconcileAll(rows0, nextId0, h.online, saved, now)
    {
      TakeStep(plan, k);
      ghost var before := h.requests;
      RunJob(h, t, cfg, plan[k], message, logId, now);
      ghost var rec := h.requests[|before|];
      ReportsAppend(saved, plan[..k], logId, rec, plan[k]);
      ReconcileAllStep(rows0, nextId0, h.online, saved, rec, now);
      saved := saved + [rec];
    }
    assert h.requests[|old(h.requests)|..] == saved;
    assert plan[..|plan|] == plan;
  }

  /**
   * `send_message`: resolves the employees' contacts; with none, one failure record and
   * nothing sent. Otherwise it aggregates the contacts and calls each sender of the plan
   * once, in order (each address, then Line, Teams, Slack, Discord, then SMS), whatever
   * the earlier calls returned; every call leaves one record under the log id and that
   * call's recipient.
   */
  method SendMessage(h: HistoryStore, t: Network, cfg: Config, directory: seq<EmployeeContact>,
                     message: Message, logId: Option<int>, now: string)
    requires h.Valid()
    modifies h, t
    ensures h.Valid()
    ensures t.messages == old(t.messages) + [(message, logId)]
    ensures var contacts := Resolve(directory, message.employees);
      contacts == [] ==>
        && Quiet(t) && t.dispatched == old(t.dispatched)
        && SavedOnce(h, NoContactsRecord(message, logId), now)
    ensures var contacts := Resolve(directory, message.employees);
      contacts != [] ==>
        && t.dispatched == old(t.dispatched) + Plan(Aggregate(contacts))
        && |h.requests| >= |old(h.requests)| && h.requests[..|old(h.requests)|] == old(h.requests)
        && Reports(h.requests[|old(h.requests)|..], Plan(Aggregate(contacts)), logId)
        && h.online == old(h.online)
        && (h.rows, h.nextId) == ReconcileAll(old(h.rows), old(h.nextId), old(h.online), h.requests[|old(h.requests)|..], now)
  {
    t.messages := t.messages + [(message, logId)];
    var contacts := Resolve(directory, message.employees);
    if contacts == [] {
      var _ := h.Save(NoContactsRecord(message, logId), now);
      return;
    }
    var fanout := CollectContacts(contacts);
    PlanIsPlannable(fanout);
    RunPlan(h, t, cfg, Plan(fanout), message, logId, now);
  }
}
