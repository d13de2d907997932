/**
 * Channel bits, notification statuses and risk levels (app/constants.py), and the
 * decoding of an employee's `contactWay` bitmask into the channels it enables.
 */
module Constants {
  import opened Wrappers

  // Channel bits of `contactWay`.
  const PublisherEmail: int := 1
  const PublisherLine: int := 2
  const PublisherTeams: int := 4
  const PublisherSlack: int := 8
  const PublisherDiscord: int := 16
  const PublisherSms: int := 32

  // Risk levels of a log.
  const RiskLow: int := 1
  const RiskHigh: int := 2
  const RiskEmergency: int := 3

  /** The delivery channels, one per bit of `contactWay`. */
  datatype Channel = Email | Line | Teams | Slack | Discord | Sms

  /** The `PUBLISHER_*` bit of a channel. */
  function Publisher(c: Channel): int {
    match c
    case Email => PublisherEmail
    case Line => PublisherLine
    case Teams => PublisherTeams
    case Slack => PublisherSlack
    case Discord => PublisherDiscord
    case Sms => PublisherSms
  }

  /** Status of a notification attempt. */
  datatype Status = Pending | Success | Failed | Retrying

  /** The `STATUS_*` integer code of a status. */
  function StatusCode(s: Status): int {
    match s
    case Pending => 0
    case Success => 1
    case Failed => 2
    case Retrying => 3
  }

  /** The status a stored integer code denotes, if any. */
  function StatusOfCode(code: int): (s: Option<Status>)
    ensures s.Some? <==> 0 <= code <= 3
    ensures s.Some? ==> StatusCode(s.value) == code
  {
    if code == 0 then Some(Pending)
    else if code == 1 then Some(Success)
    else if code == 2 then Some(Failed)
    else if code == 3 then Some(Retrying)
    else None
  }

  /**
   * Python's `contactWay & PUBLISHER_X` is non-zero. Every `PUBLISHER_X` is a single
   * power of two, so the test reads one binary digit; Dafny's `/` rounds down for a
   * positive divisor, which is also what Python's two's-complement `&` does for
   * negative masks.
   */
  predicate Enabled(contactWay: int, c: Channel) {
    (contactWay / Publisher(c)) % 2 == 1
  }

  /** The channels a `contactWay` mask enables. */
  function ChannelsOf(contactWay: int): set<Channel> {
    set c: Channel | c in AllChannels && Enabled(contactWay, c)
  }

  const AllChannels: set<Channel> := {Email, Line, Teams, Slack, Discord, Sms}

  /** 1 for a channel in the set, 0 otherwise. */
  function Bit(b: bool): int
  {
    if b then 1 else 0
  }

  /** The mask that enables exactly the channels in `s`: the sum of their `PUBLISHER_*` bits (1, 2, 4, 8, 16, 32). */
  function Mask(s: set<Channel>): int {
    Bit(Email in s) + 2 * Bit(Line in s) + 4 * Bit(Teams in s)
    + 8 * Bit(Slack in s) + 16 * Bit(Discord in s) + 32 * Bit(Sms in s)
  }

  /** In the mask of `s`, the binary digit of each channel is 1 exactly when the channel is in `s`. */
  lemma MaskBit(s: set<Channel>, c: Channel)
    ensures Enabled(Mask(s), c) <==> c in s
  {
    var e, l, t, k, d, m :=
      Bit(Email in s), Bit(Line in s), Bit(Teams in s), Bit(Slack in s), Bit(Discord in s), Bit(Sms in s);
    Digits(Mask(s), e, l, t, k, d, m);
  }

  /** The channels enabled by `e + 2l + 4t + 8k + 16d + 32m`, each digit 0 or 1, are those whose digit is 1. */
  lemma Digits(x: int, e: int, l: int, t: int, k: int, d: int, m: int)
    requires 0 <= e <= 1 && 0 <= l <= 1 && 0 <= t <= 1 && 0 <= k <= 1 && 0 <= d <= 1 && 0 <= m <= 1
    requires x == e + 2 * l + 4 * t + 8 * k + 16 * d + 32 * m
    ensures (Enabled(x, Email) <==> e == 1) && (Enabled(x, Line) <==> l == 1) && (Enabled(x, Teams) <==> t == 1)
    ensures (Enabled(x, Slack) <==> k == 1) && (Enabled(x, Discord) <==> d == 1) && (Enabled(x, Sms) <==> m == 1)
  {
    assert x / 2 == l + 2 * (t + 2 * k + 4 * d + 8 * m);
    assert x / 4 == t + 2 * (k + 2 * d + 4 * m);
    assert x / 8 == k + 2 * (d + 2 * m);
    assert x / 16 == d + 2 * m;
    assert x / 32 == m;
  }

  /** Decoding the mask of a channel set gives the set back: the bits do not interfere. */
  lemma {:induction false} ChannelsOfMask(s: set<Channel>)
    ensures ChannelsOf(Mask(s)) == s
  {
    forall c | c in AllChannels
      ensures c in ChannelsOf(Mask(s)) <==> c in s
    {
      MaskBit(s, c);
    }
    forall c: Channel
      ensures c in AllChannels
    {
      match c
      case Email => case Line => case Teams => case Slack => case Discord => case Sms =>
    }
  }
}
