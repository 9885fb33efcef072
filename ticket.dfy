/**
 * The ticket codec: `generateTicket` (main.go:1087-1094) and `checkTicket`
 * (main.go:1096-1125). A ticket is the decimal millisecond timestamp, the
 * decimal counter, the hex HMAC-SHA256 of a space-separated message, and the
 * decimal `10000 + ttl`, concatenated with no separators. `checkTicket`
 * accepts only 86 bytes and cuts the fields by position: 13 / 4 / 64 / rest.
 */
module Ticket {
  import opened Wrappers
  import opened Decimal
  import Counter

  /**
   * `hex.EncodeToString(Sha256(message, key))`: HMAC-SHA256 under `key`,
   * hex-encoded. The model treats it as an opaque function of its inputs.
   */
  type Mac = (string, string) -> string

  predicate IsLowerHex(c: char) { '0' <= c <= '9' || 'a' <= c <= 'f' }

  predicate IsHexDigest(d: string)
  {
    |d| == 64 && forall i :: 0 <= i < |d| ==> IsLowerHex(d[i])
  }

  /** Every digest is 64 lowercase hex characters, as `hex.EncodeToString` of 32 bytes is. */
  ghost predicate WellFormedMac(mac: Mac)
  {
    forall m, k :: IsHexDigest(mac(m, k))
  }

  const TicketLength: nat := 86
  const TimestampEnd: nat := 13
  const CounterEnd: nat := 17
  const DigestEnd: nat := 81
  const TtlOffset: int := 10000
  /** Seconds a minted ticket stays usable on the scan leg. */
  const ScanGrace: int := 100
  const ScanMode: string := "scan"

  /** A millisecond timestamp that prints with 13 digits (years 2001 to 2286). */
  predicate IsTimestampMs(ms: int) { Pow10(12) <= ms < Pow10(13) }

  /** The signed message: `"%s %s %s %s %s"` of timestamp, counter, user agent, IP and ttl field. */
  function Message(timestamp: string, counter: string, userAgent: string, userIp: string, ttlField: string): string
  {
    timestamp + " " + counter + " " + userAgent + " " + userIp + " " + ttlField
  }

  /** `generateTicket` with the clock reading `nowMs`, the counter value and the secret given. */
  function Generate(userAgent: string, userIp: string, ttl: int, nowMs: int, counter: int, secret: string, mac: Mac): (t: string)
    ensures |FormatInt(nowMs)| <= |t| && t[..|FormatInt(nowMs)|] == FormatInt(nowMs)
    ensures |FormatInt(TtlOffset + ttl)| <= |t| && t[|t| - |FormatInt(TtlOffset + ttl)|..] == FormatInt(TtlOffset + ttl)
  {
    var timestamp, count, ttlField := FormatInt(nowMs), FormatInt(counter), FormatInt(TtlOffset + ttl);
    timestamp + count + mac(Message(timestamp, count, userAgent, userIp, ttlField), secret) + ttlField
  }

  /** What `checkTicket` returns: the comparison result and the decoded ttl. */
  datatype Verdict = Verdict(ok: bool, ttl: int)

  /** The message `checkTicket` recomputes from a ticket's own fields and the caller's fingerprint. */
  function Resigned(t: string, userAgent: string, userIp: string, secret: string, mac: Mac): string
    requires |t| == TicketLength
  {
    mac(Message(t[..TimestampEnd], t[TimestampEnd..CounterEnd], userAgent, userIp, t[DigestEnd..]), secret)
  }

  /**
   * `checkTicket(t, userAgent, userIp, mode)` at unix time `now`. Wrong length,
   * in scan mode an unparsable or stale timestamp, and an unparsable ttl field
   * give `(false, 0)`; otherwise the result is the digest comparison together
   * with the ttl field minus 10000.
   */
  function Check(t: string, userAgent: string, userIp: string, mode: string, now: int, secret: string, mac: Mac): (r: Verdict)
    ensures |t| != TicketLength ==> r == Verdict(false, 0)
    ensures r.ok ==> |t| == TicketLength && t[CounterEnd..DigestEnd] == Resigned(t, userAgent, userIp, secret, mac)
    ensures r.ok && mode == ScanMode ==> Atoi(t[..10]).Some? && now <= Atoi(t[..10]).value + ScanGrace
    ensures r.ok ==> Atoi(t[DigestEnd..]) == Some(r.ttl + TtlOffset)
    ensures |t| == TicketLength && mode == ScanMode && (Atoi(t[..10]).None? || Atoi(t[..10]).value + ScanGrace < now) ==>
      r == Verdict(false, 0)
    ensures |t| == TicketLength && Atoi(t[DigestEnd..]).None? ==> r == Verdict(false, 0)
    ensures |t| == TicketLength && Atoi(t[DigestEnd..]).Some? &&
            (mode == ScanMode ==> Atoi(t[..10]).Some? && now <= Atoi(t[..10]).value + ScanGrace) ==>
      r == Verdict(t[CounterEnd..DigestEnd] == Resigned(t, userAgent, userIp, secret, mac), Atoi(t[DigestEnd..]).value - TtlOffset)
  {
    if |t| != TicketLength then Verdict(false, 0)
    else if mode == ScanMode && (Atoi(t[..10]).None? || Atoi(t[..10]).value + ScanGrace < now) then Verdict(false, 0)
    else
      var expected := Resigned(t, userAgent, userIp, secret, mac);
      match Atoi(t[DigestEnd..])
      case None => Verdict(false, 0)
      case Some(ttlField) => Verdict(expected == t[CounterEnd..DigestEnd], ttlField - TtlOffset)
  }

  /** A minted ticket has the fixed layout 13 / 4 / 64 / 5 when its fields have those widths. */
  lemma MintedLayout(userAgent: string, userIp: string, ttl: int, nowMs: int, counter: int, secret: string, mac: Mac)
    requires WellFormedMac(mac) && IsTimestampMs(nowMs) && Counter.InRange(counter) && 0 <= ttl < 90000
    ensures var t := Generate(userAgent, userIp, ttl, nowMs, counter, secret, mac);
      && |t| == TicketLength
      && t[..TimestampEnd] == FormatInt(nowMs)
      && t[TimestampEnd..CounterEnd] == FormatInt(counter)
      && t[DigestEnd..] == FormatInt(TtlOffset + ttl)
      && t[CounterEnd..DigestEnd] == mac(Message(FormatInt(nowMs), FormatInt(counter), userAgent, userIp, FormatInt(TtlOffset + ttl)), secret)
  {
    DigitsLength(nowMs, 13);
    DigitsLength(counter, 4);
    DigitsLength(TtlOffset + ttl, 5);
    var a, b, d, e := FormatInt(nowMs), FormatInt(counter),
      mac(Message(FormatInt(nowMs), FormatInt(counter), userAgent, userIp, FormatInt(TtlOffset + ttl)), secret),
      FormatInt(TtlOffset + ttl);
    assert |d| == 64;
    var t := a + b + d + e;
    assert t[..13] == a;
    assert t[13..17] == b;
    assert t[17..81] == d;
    assert t[81..] == e;
  }

  /** Round trip: outside scan mode a minted ticket verifies for the same fingerprint and yields its ttl. */
  lemma RoundTrip(userAgent: string, userIp: string, ttl: int, nowMs: int, counter: int, secret: string, mac: Mac, mode: string, now: int)
    requires WellFormedMac(mac) && IsTimestampMs(nowMs) && Counter.InRange(counter) && 0 <= ttl < 90000
    requires mode != ScanMode
    ensures Check(Generate(userAgent, userIp, ttl, nowMs, counter, secret, mac), userAgent, userIp, mode, now, secret, mac)
      == Verdict(true, ttl)
  {
    MintedLayout(userAgent, userIp, ttl, nowMs, counter, secret, mac);
    AtoiFormatInt(TtlOffset + ttl);
  }

  /** The first ten digits of a 13-digit millisecond timestamp are its unix seconds. */
  lemma SecondsPrefix(nowMs: int)
    requires IsTimestampMs(nowMs)
    ensures |FormatInt(nowMs)| == 13
    ensures Atoi(FormatInt(nowMs)[..10]) == Some(nowMs / 1000)
  {
    DigitsLength(nowMs, 13);
    DigitsDropThree(nowMs);
    assert nowMs / 1000 <= MaxInt64;
    AtoiFormatInt(nowMs / 1000);
  }

  /**
   * Scan window: in scan mode a minted ticket verifies exactly while its
   * minting second plus 100 is not before `now`; after that it fails closed.
   */
  lemma ScanWindow(userAgent: string, userIp: string, ttl: int, nowMs: int, counter: int, secret: string, mac: Mac, now: int)
    requires WellFormedMac(mac) && IsTimestampMs(nowMs) && Counter.InRange(counter) && 0 <= ttl < 90000
    ensures Check(Generate(userAgent, userIp, ttl, nowMs, counter, secret, mac), userAgent, userIp, ScanMode, now, secret, mac)
      == if now <= nowMs / 1000 + ScanGrace then Verdict(true, ttl) else Verdict(false, 0)
  {
    MintedLayout(userAgent, userIp, ttl, nowMs, counter, secret, mac);
    var t := Generate(userAgent, userIp, ttl, nowMs, counter, secret, mac);
    SecondsPrefix(nowMs);
    assert t[..10] == FormatInt(nowMs)[..10];
    AtoiFormatInt(TtlOffset + ttl);
  }

  /** A ttl of 90000 or more gives a ticket longer than 86 bytes, which never verifies. */
  lemma OversizedTtlRejected(userAgent: string, userIp: string, ttl: int, nowMs: int, counter: int, secret: string, mac: Mac, mode: string, now: int)
    requires WellFormedMac(mac) && IsTimestampMs(nowMs) && Counter.InRange(counter) && ttl >= 90000
    ensures Check(Generate(userAgent, userIp, ttl, nowMs, counter, secret, mac), userAgent, userIp, mode, now, secret, mac)
      == Verdict(false, 0)
  {
    DigitsLength(nowMs, 13);
    DigitsLength(counter, 4);
    DigitsLengthAtLeast(TtlOffset + ttl, 5);
    var digest := mac(Message(FormatInt(nowMs), FormatInt(counter), userAgent, userIp, FormatInt(TtlOffset + ttl)), secret);
    assert |digest| == 64;
  }

  /**
   * Tamper detection: replacing the digest field of a ticket that verifies by
   * any other 64 characters makes it fail, whatever the mode and time.
   */
  lemma DigestTamperRejected(t: string, digest: string, userAgent: string, userIp: string, mode: string, now: int, secret: string, mac: Mac)
    requires Check(t, userAgent, userIp, mode, now, secret, mac).ok
    requires |digest| == 64 && digest != t[CounterEnd..DigestEnd]
    ensures !Check(t[..CounterEnd] + digest + t[DigestEnd..], userAgent, userIp, mode, now, secret, mac).ok
  {
    var t' := t[..CounterEnd] + digest + t[DigestEnd..];
    assert |t'| == TicketLength;
    assert t'[..10] == t[..10];
    assert t'[..TimestampEnd] == t[..TimestampEnd];
    assert t'[TimestampEnd..CounterEnd] == t[TimestampEnd..CounterEnd];
    assert t'[DigestEnd..] == t[DigestEnd..];
    assert t'[CounterEnd..DigestEnd] == digest;
  }

  lemma ConcatCancel(a: string, x: string, y: string, b: string)
    ensures a + x + b == a + y + b <==> x == y
  {
    if a + x + b == a + y + b {
      assert |x| == |y|;
      assert x == (a + x + b)[|a|..|a| + |x|];
      assert y == (a + y + b)[|a|..|a| + |y|];
    }
  }

  /**
   * Fingerprint binding: when the digest tells the two messages apart, a
   * minted ticket verifies for another (user agent, IP) exactly when
   * `userAgent + " " + userIp` is the same string as at minting.
   */
  lemma FingerprintBinding(userAgent: string, userIp: string, ua2: string, ip2: string, ttl: int, nowMs: int, counter: int,
                           secret: string, mac: Mac, mode: string, now: int)
    requires WellFormedMac(mac) && IsTimestampMs(nowMs) && Counter.InRange(counter) && 0 <= ttl < 90000
    requires mode != ScanMode
    requires var ts, c, f := FormatInt(nowMs), FormatInt(counter), FormatInt(TtlOffset + ttl);
      Message(ts, c, userAgent, userIp, f) != Message(ts, c, ua2, ip2, f) ==>
      mac(Message(ts, c, userAgent, userIp, f), secret) != mac(Message(ts, c, ua2, ip2, f), secret)
    ensures Check(Generate(userAgent, userIp, ttl, nowMs, counter, secret, mac), ua2, ip2, mode, now, secret, mac).ok
      <==> ua2 + " " + ip2 == userAgent + " " + userIp
  {
    var ts, c, f := FormatInt(nowMs), FormatInt(counter), FormatInt(TtlOffset + ttl);
    CheckMintedOther(userAgent, userIp, ua2, ip2, ttl, nowMs, counter, secret, mac, mode, now);
    MessageFingerprint(ts, c, userAgent, userIp, f);
    MessageFingerprint(ts, c, ua2, ip2, f);
    ConcatCancel(ts + " " + c + " ", userAgent + " " + userIp, ua2 + " " + ip2, " " + f);
  }

  lemma MessageFingerprint(ts: string, c: string, userAgent: string, userIp: string, f: string)
    ensures Message(ts, c, userAgent, userIp, f) == (ts + " " + c + " ") + (userAgent + " " + userIp) + (" " + f)
  {
  }

  /** Outside scan mode a minted ticket checked with any fingerprint yields its ttl and a digest comparison. */
  lemma CheckMintedOther(userAgent: string, userIp: string, ua2: string, ip2: string, ttl: int, nowMs: int, counter: int,
                         secret: string, mac: Mac, mode: string, now: int)
    requires WellFormedMac(mac) && IsTimestampMs(nowMs) && Counter.InRange(counter) && 0 <= ttl < 90000
    requires mode != ScanMode
    ensures var ts, c, f := FormatInt(nowMs), FormatInt(counter), FormatInt(TtlOffset + ttl);
      Check(Generate(userAgent, userIp, ttl, nowMs, counter, secret, mac), ua2, ip2, mode, now, secret, mac)
      == Verdict(mac(Message(ts, c, ua2, ip2, f), secret) == mac(Message(ts, c, userAgent, userIp, f), secret), ttl)
  {
    MintedLayout(userAgent, userIp, ttl, nowMs, counter, secret, mac);
    AtoiFormatInt(TtlOffset + ttl);
  }

  /**
   * The binding is to the joined string, not to the pair: a ticket minted for
   * user agent "A B" at IP "C" also verifies for user agent "A" at IP "B C".
   */
  lemma FingerprintSpaceAmbiguity(ttl: int, nowMs: int, counter: int, secret: string, mac: Mac, now: int)
    requires WellFormedMac(mac) && IsTimestampMs(nowMs) && Counter.InRange(counter) && 0 <= ttl < 90000
    ensures Check(Generate("A B", "C", ttl, nowMs, counter, secret, mac), "A", "B C", "fetch", now, secret, mac)
      == Verdict(true, ttl)
  {
    MintedLayout("A B", "C", ttl, nowMs, counter, secret, mac);
    AtoiFormatInt(TtlOffset + ttl);
    var ts, c, f := FormatInt(nowMs), FormatInt(counter), FormatInt(TtlOffset + ttl);
    assert Message(ts, c, "A B", "C", f) == Message(ts, c, "A", "B C", f);
  }

  /**
   * `generateTicket` as the scan handler runs it: one call of `GetCounterInt`,
   * then the ticket for the new counter value.
   */
  method Mint(counter: Counter.SharedCounter, userAgent: string, userIp: string, ttl: int, nowMs: int, secret: string, mac: Mac)
    returns (t: string)
    requires counter.Valid()
    modifies counter
    ensures counter.Valid() && counter.value == Counter.Step(old(counter.value))
    ensures t == Generate(userAgent, userIp, ttl, nowMs, counter.value, secret, mac)
    ensures WellFormedMac(mac) && IsTimestampMs(nowMs) && 0 <= ttl < 90000 ==>
      forall now :: Check(t, userAgent, userIp, "fetch", now, secret, mac) == Verdict(true, ttl)
  {
    var c := counter.Next();
    t := Generate(userAgent, userIp, ttl, nowMs, c, secret, mac);
    if WellFormedMac(mac) && IsTimestampMs(nowMs) && 0 <= ttl < 90000 {
      forall now: int
        ensures Check(t, userAgent, userIp, "fetch", now, secret, mac) == Verdict(true, ttl)
      {
        RoundTrip(userAgent, userIp, ttl, nowMs, c, secret, mac, "fetch", now);
      }
    }
  }
}
