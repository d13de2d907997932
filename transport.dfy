/**
 * The outside world the senders talk to: SMTP servers and HTTP endpoints whose answers
 * are given in advance by an oracle, and a record of what was attempted, slept and sent.
 */
module Transport {
  import opened Wrappers
  import opened Constants
  import opened Records

  /** What one delivery attempt gets back: an HTTP status and text, or an exception's text. */
  datatype Reply = Answered(code: int, text: string) | Raised(error: string)

  /** One SMTP submission or HTTP POST on `channel` to `target`. */
  datatype Attempt = Attempt(channel: Channel, target: string)

  /** One call of a sender function (`send_email`, `send_line`, `webhook`, `sms`). */
  datatype Job = EmailJob(to: seq<string>) | LineJob | WebhookJob(kind: int) | SmsJob(phones: seq<string>)

  class Network {
    /** The reply the n-th attempt ever made receives. */
    const answer: nat -> Reply
    /** How many attempts have been made so far. */
    var used: nat
    /** Every attempt made, in order. */
    var attempts: seq<Attempt>
    /** Every backoff `time.sleep` duration, in seconds, in order. */
    ghost var sleeps: seq<nat>
    /** Every sender call, in order. */
    ghost var dispatched: seq<Job>
    /** Every `send_message` call, with its log id, in order. */
    ghost var messages: seq<(Message, Option<int>)>

    constructor (answer: nat -> Reply)
      ensures this.answer == answer
      ensures used == 0 && attempts == [] && sleeps == [] && dispatched == [] && messages == []
    {
      this.answer := answer;
      used := 0;
      attempts := [];
      sleeps := [];
      dispatched := [];
      messages := [];
    }

    /** Makes one attempt and returns the reply the oracle holds for it. */
    method Deliver(a: Attempt) returns (r: Reply)
      modifies this
      ensures r == answer(old(used))
      ensures used == old(used) + 1 && attempts == old(attempts) + [a]
      ensures sleeps == old(sleeps) && dispatched == old(dispatched) && messages == old(messages)
    {
      r := answer(used);
      used := used + 1;
      attempts := attempts + [a];
    }

    /** `time.sleep(seconds)`: only the duration is recorded. */
    method Sleep(seconds: nat)
      modifies this
      ensures sleeps == old(sleeps) + [seconds]
      ensures used == old(used) && attempts == old(attempts)
      ensures dispatched == old(dispatched) && messages == old(messages)
    {
      sleeps := sleeps + [seconds];
    }
  }

  /** The replies the next `n` attempts will receive, starting with attempt number `from`. */
  function Window(answer: nat -> Reply, from: nat, n: nat): seq<Reply>
  {
    seq(n, i requires 0 <= i < n => answer(from + i))
  }

  /** `n` copies of the same attempt. */
  function Repeat(a: Attempt, n: nat): seq<Attempt>
  {
    seq(n, _ => a)
  }

  /** One more attempt extends the run by that attempt. */
  lemma RepeatStep(a: Attempt, n: nat)
    ensures Repeat(a, n + 1) == Repeat(a, n) + [a]
  {
    assert forall i :: 0 <= i < n + 1 ==> Repeat(a, n + 1)[i] == (Repeat(a, n) + [a])[i];
  }
}
