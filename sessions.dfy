/**
 * The session store: the pair of maps `MemMap` (ticket -> profile JSON, plus
 * the cached "accessToken") and `MemMapTTL` (ticket -> expiry, unix seconds)
 * declared at main.go:57-58, with the operations the handlers perform on
 * them: the write in `successReturn`, the redemption in the fetch handler,
 * the TTL query, the admin delete and the sweeper pass.
 */
module Sessions {
  import opened Wrappers
  import opened Ticket
  import opened Net
  import opened Expiry

  const AccessTokenKey: string := "accessToken"
  const ErrParse: string := "err:21"
  const ErrGone: string := "err:22"
  const ErrBadTicket: string := "err:28"

  /** The two maps as one value. */
  datatype Sessions = Sessions(values: map<string, string>, expiry: map<string, int>)

  /** Keys of `MemMapTTL` whose expiry has been reached at `now`. */
  function ExpiredAt(expiry: map<string, int>, now: int): (r: set<string>)
    ensures forall k :: k in r <==> k in expiry && now >= expiry[k]
  {
    ExpiredKeys(expiry, t => t, now)
  }

  /**
   * One pass of `clearExpiredTicket` with the cutoff `now`: every key whose
   * expiry is reached leaves both maps; every other entry stays, including
   * keys of `MemMap` that have no expiry (the cached access token).
   */
  function SweepSpec(s: Sessions, now: int): (r: Sessions)
    ensures forall k :: k in r.expiry <==> k in s.expiry && now < s.expiry[k]
    ensures forall k :: k in r.values <==> k in s.values && (k in s.expiry ==> now < s.expiry[k])
    ensures forall k :: k in r.expiry ==> r.expiry[k] == s.expiry[k]
    ensures forall k :: k in r.values ==> r.values[k] == s.values[k]
  {
    var gone := ExpiredAt(s.expiry, now);
    Sessions(s.values - gone, s.expiry - gone)
  }

  /** Sweeping twice is sweeping once with the later cutoff. */
  lemma SweepCompose(s: Sessions, a: int, b: int)
    ensures SweepSpec(SweepSpec(s, a), b) == SweepSpec(s, if a < b then b else a)
  {
    var c := if a < b then b else a;
    var l, r := SweepSpec(SweepSpec(s, a), b), SweepSpec(s, c);
    assert l.expiry.Keys == r.expiry.Keys;
    assert l.values.Keys == r.values.Keys;
  }

  /** `MemMap.Store(ticket, payload); MemMapTTL.Store(ticket, expiresAt)`. */
  function PutSpec(s: Sessions, ticket: string, payload: string, expiresAt: int): (r: Sessions)
    ensures ticket in r.values && r.values[ticket] == payload
    ensures ticket in r.expiry && r.expiry[ticket] == expiresAt
    ensures r.values.Keys == s.values.Keys + {ticket} && r.expiry.Keys == s.expiry.Keys + {ticket}
    ensures forall k :: k in s.values && k != ticket ==> r.values[k] == s.values[k]
    ensures forall k :: k in s.expiry && k != ticket ==> r.expiry[k] == s.expiry[k]
  {
    Sessions(s.values[ticket := payload], s.expiry[ticket := expiresAt])
  }

  /** `MemMap.Delete(key); MemMapTTL.Delete(key)`. */
  function DeleteSpec(s: Sessions, key: string): (r: Sessions)
    ensures key !in r.values && key !in r.expiry
    ensures forall k :: k != key ==> (k in r.values <==> k in s.values) && (k in r.expiry <==> k in s.expiry)
    ensures forall k :: k in r.values ==> r.values[k] == s.values[k]
    ensures forall k :: k in r.expiry ==> r.expiry[k] == s.expiry[k]
  {
    Sessions(s.values - {key}, s.expiry - {key})
  }

  /** Whether a fetch of a live ticket renews it: keep the expiry, extend it, or panic in `isInnerIp`. */
  datatype Renewal = Keep | Extend | Crash

  /**
   * The renewal gate of the fetch handler: `renew == "1"`, the configuration
   * `allow_ticket_renew` present and equal to "yes", and `isInnerIp` of the
   * peer's host (evaluated only when the first two hold).
   */
  function RenewGate(renew: string, allowTicketRenew: Option<string>, remoteAddr: string): (g: Renewal)
    ensures g == Extend <==> renew == "1" && allowTicketRenew == Some("yes") && IsInnerIp(HostOf(remoteAddr)) == Some(true)
    ensures g == Crash <==> renew == "1" && allowTicketRenew == Some("yes") && IsInnerIp(HostOf(remoteAddr)).None?
  {
    if renew == "1" && allowTicketRenew == Some("yes") then
      match IsInnerIp(HostOf(remoteAddr))
      case None => Crash
      case Some(inner) => if inner then Extend else Keep
    else Keep
  }

  /** What a handler writes: `EchoJson(w, "0", payload)`, `EchoJson(w, code, nil)`, or nothing after a panic. */
  datatype Reply = Payload(json: string) | Failure(code: string) | Crashed

  datatype Fetched = Fetched(reply: Reply, after: Sessions)

  /**
   * The store part of the fetch handler (main.go:342-365) for a ticket that
   * passed `checkTicket` with `ttl`. A ticket in both maps whose expiry is
   * reached is deleted from both and reported gone; a live one returns its
   * payload, and its expiry becomes `now + ttl` when the gate grants renewal.
   */
  function FetchSpec(s: Sessions, ticket: string, ttl: int, now: int, gate: Renewal): (r: Fetched)
    ensures r.reply.Payload? <==> ticket in s.values && ticket in s.expiry && now < s.expiry[ticket] && gate != Crash
    ensures r.reply.Payload? ==> r.reply.json == s.values[ticket]
    ensures !r.reply.Payload? && !r.reply.Crashed? ==> r.reply == Failure(ErrGone)
    ensures ticket in s.values && ticket in s.expiry && now >= s.expiry[ticket] ==> r.after == DeleteSpec(s, ticket)
    ensures r.after.values.Keys <= s.values.Keys
    ensures forall k :: k in r.after.values ==> r.after.values[k] == s.values[k]
    ensures forall k :: k in r.after.expiry ==>
      k in s.expiry && (r.after.expiry[k] == s.expiry[k] || (k == ticket && gate == Extend && r.after.expiry[k] == now + ttl))
    ensures r.reply.Payload? && gate == Extend ==> r.after.expiry == s.expiry[ticket := now + ttl]
    ensures !(ticket in s.values && ticket in s.expiry) ==> r == Fetched(Failure(ErrGone), s)
    ensures r.reply.Crashed? <==> ticket in s.values && ticket in s.expiry && now < s.expiry[ticket] && gate == Crash
    ensures ticket in s.values && ticket in s.expiry && now < s.expiry[ticket] ==>
      r.after.values == s.values && r.after.expiry == (if gate == Extend then s.expiry[ticket := now + ttl] else s.expiry)
  {
    if ticket in s.values && ticket in s.expiry then
      if now >= s.expiry[ticket] then Fetched(Failure(ErrGone), DeleteSpec(s, ticket))
      else
        match gate
        case Crash => Fetched(Crashed, s)
        case Keep => Fetched(Payload(s.values[ticket]), s)
        case Extend => Fetched(Payload(s.values[ticket]), s.(expiry := s.expiry[ticket := now + ttl]))
    else Fetched(Failure(ErrGone), s)
  }

  /**
   * The sweeper is advisory: a fetch at `later` answers the same whether or
   * not a sweep with an earlier cutoff ran before it.
   */
  lemma SweepIsAdvisory(s: Sessions, ticket: string, ttl: int, swept: int, later: int, gate: Renewal)
    requires swept <= later
    ensures FetchSpec(SweepSpec(s, swept), ticket, ttl, later, gate).reply == FetchSpec(s, ticket, ttl, later, gate).reply
  {
    var t := SweepSpec(s, swept);
    if ticket in s.values && ticket in s.expiry && later < s.expiry[ticket] {
      assert ticket in t.values && ticket in t.expiry;
    }
  }

  /**
   * Expiry: after `successReturn` stores a ticket with expiry `now + ttl`, a
   * fetch answers with the payload strictly before that second and with
   * "err:22" from it on, whether or not the sweeper has run.
   */
  lemma PutThenFetch(s: Sessions, ticket: string, payload: string, now: int, ttl: int, later: int, ttl2: int, gate: Renewal)
    requires gate != Crash
    ensures FetchSpec(PutSpec(s, ticket, payload, now + ttl), ticket, ttl2, later, gate).reply
      == if later < now + ttl then Payload(payload) else Failure(ErrGone)
  {
  }

  /** The whole fetch handler after form parsing: empty ticket, `checkTicket` in fetch mode, then the store. */
  function FetchByTicketSpec(s: Sessions, ticket: string, renew: string, userAgent: string, userIp: string, remoteAddr: string,
                             allowTicketRenew: Option<string>, now: int, secret: string, mac: Mac): (r: Fetched)
    ensures ticket == "" ==> r == Fetched(Failure(ErrParse), s)
    ensures r.reply.Payload? ==> Check(ticket, userAgent, userIp, "fetch", now, secret, mac).ok
    ensures ticket != "" && !Check(ticket, userAgent, userIp, "fetch", now, secret, mac).ok ==>
      r == Fetched(Failure(ErrBadTicket), s)
    ensures ticket != "" && Check(ticket, userAgent, userIp, "fetch", now, secret, mac).ok ==>
      r == FetchSpec(s, ticket, Check(ticket, userAgent, userIp, "fetch", now, secret, mac).ttl, now,
                     RenewGate(renew, allowTicketRenew, remoteAddr))
  {
    if ticket == "" then Fetched(Failure(ErrParse), s)
    else
      var v := Check(ticket, userAgent, userIp, "fetch", now, secret, mac);
      if !v.ok then Fetched(Failure(ErrBadTicket), s)
      else FetchSpec(s, ticket, v.ttl, now, RenewGate(renew, allowTicketRenew, remoteAddr))
  }

  /**
   * Renewal authorization: a fetch changes a recorded expiry (other than by
   * deleting the entry) only when renewal was requested, allowed by the
   * configuration and the peer passes `isInnerIp`. Since `isInnerIp` splits on
   * commas, a peer host without a comma must be 127.0.0.1 (or the bare "10").
   */
  lemma RenewalNeedsInternalPeer(s: Sessions, ticket: string, renew: string, userAgent: string, userIp: string, remoteAddr: string,
                                 allowTicketRenew: Option<string>, now: int, secret: string, mac: Mac, k: string)
    requires var r := FetchByTicketSpec(s, ticket, renew, userAgent, userIp, remoteAddr, allowTicketRenew, now, secret, mac);
      k in r.after.expiry && r.after.expiry[k] != s.expiry[k]
    ensures renew == "1" && allowTicketRenew == Some("yes") && IsInnerIp(HostOf(remoteAddr)) == Some(true)
    ensures ',' !in HostOf(remoteAddr) ==> HostOf(remoteAddr) in {Loopback, "10"}
  {
    if ',' !in HostOf(remoteAddr) {
      IsInnerIpWithoutComma(HostOf(remoteAddr));
    }
  }

  /** What the TTL handler writes. */
  datatype TtlReply = Remaining(seconds: int) | TicketNotFound | TtlFailure(code: string)

  /**
   * The TTL handler (main.go:278-304): after the same ticket checks as a
   * fetch, the recorded expiry minus `now`. There is no lazy expiry here, so
   * an unswept expired ticket reports a negative number of seconds.
   */
  function TtlSpec(s: Sessions, ticket: string, userAgent: string, userIp: string, now: int, secret: string, mac: Mac): (r: TtlReply)
    ensures r.Remaining? <==> ticket != "" && Check(ticket, userAgent, userIp, "fetch", now, secret, mac).ok && ticket in s.expiry
    ensures r.Remaining? ==> now + r.seconds == s.expiry[ticket]
    ensures r == TicketNotFound <==> ticket != "" && Check(ticket, userAgent, userIp, "fetch", now, secret, mac).ok && ticket !in s.expiry
    ensures ticket == "" ==> r == TtlFailure(ErrParse)
    ensures ticket != "" && !Check(ticket, userAgent, userIp, "fetch", now, secret, mac).ok ==> r == TtlFailure(ErrBadTicket)
  {
    if ticket == "" then TtlFailure(ErrParse)
    else if !Check(ticket, userAgent, userIp, "fetch", now, secret, mac).ok then TtlFailure(ErrBadTicket)
    else if ticket in s.expiry then Remaining(s.expiry[ticket] - now)
    else TicketNotFound
  }

  /**
   * The cached access token has no expiry entry, so no sweep removes it; and
   * since it is not 86 characters long, no fetch can return it as a payload.
   */
  lemma AccessTokenKept(s: Sessions, now: int, renew: string, userAgent: string, userIp: string, remoteAddr: string,
                        allowTicketRenew: Option<string>, secret: string, mac: Mac)
    requires AccessTokenKey in s.values && AccessTokenKey !in s.expiry
    ensures AccessTokenKey in SweepSpec(s, now).values
    ensures SweepSpec(s, now).values[AccessTokenKey] == s.values[AccessTokenKey]
    ensures !FetchByTicketSpec(s, AccessTokenKey, renew, userAgent, userIp, remoteAddr, allowTicketRenew, now, secret, mac).reply.Payload?
  {
  }

  /**
   * The access token that identity resolution last stored in `MemMap`
   * (main.go:463 when none was cached, main.go:489 on a refresh), without an
   * expiry entry; `None` when it stored none.
   */
  function CacheToken(s: Sessions, stored: Option<string>): (r: Sessions)
    ensures r.expiry == s.expiry
    ensures stored.None? ==> r == s
    ensures stored.Some? ==> AccessTokenKey in r.values && r.values[AccessTokenKey] == stored.value
    ensures forall k :: k != AccessTokenKey ==> (k in r.values <==> k in s.values) && (k in r.values ==> r.values[k] == s.values[k])
  {
    match stored
    case None => s
    case Some(token) => s.(values := s.values[AccessTokenKey := token])
  }

  /** `MemMap` and `MemMapTTL`, updated in place. */
  class SessionStore {
    var values: map<string, string>
    var expiry: map<string, int>

    function State(): Sessions
      reads this
    {
      Sessions(values, expiry)
    }

    constructor ()
      ensures State() == Sessions(map[], map[])
    {
      values, expiry := map[], map[];
    }

    /** The session write of `successReturn` (main.go:1192-1194). */
    method Put(ticket: string, payload: string, expiresAt: int)
      modifies this
      ensures State() == PutSpec(old(State()), ticket, payload, expiresAt)
    {
      values := values[ticket := payload];
      expiry := expiry[ticket := expiresAt];
    }

    /** `MemMap.Store("accessToken", token)`, with no expiry entry. */
    method StoreAccessToken(token: string)
      modifies this
      ensures State() == CacheToken(old(State()), Some(token))
    {
      values := values[AccessTokenKey := token];
    }

    /** The fetch handler (main.go:318-365) after form parsing. */
    method FetchByTicket(ticket: string, renew: string, userAgent: string, userIp: string, remoteAddr: string,
                         allowTicketRenew: Option<string>, now: int, secret: string, mac: Mac) returns (reply: Reply)
      modifies this
      ensures Fetched(reply, State())
        == FetchByTicketSpec(old(State()), ticket, renew, userAgent, userIp, remoteAddr, allowTicketRenew, now, secret, mac)
    {
      if ticket == "" {
        return Failure(ErrParse);
      }
      var v := Check(ticket, userAgent, userIp, "fetch", now, secret, mac);
      if !v.ok {
        return Failure(ErrBadTicket);
      }
      if ticket in values && ticket in expiry {
        if now >= expiry[ticket] {
          values := values - {ticket};
          expiry := expiry - {ticket};
          return Failure(ErrGone);
        }
        if renew == "1" && allowTicketRenew == Some("yes") {
          var inner := IsInnerIp(HostOf(remoteAddr));
          if inner.None? {
            return Crashed;
          }
          if inner.value {
            expiry := expiry[ticket := now + v.ttl];
          }
        }
        return Payload(values[ticket]);
      }
      return Failure(ErrGone);
    }

    /** The TTL handler (main.go:278-304) after form parsing; it changes nothing. */
    function Ttl(ticket: string, userAgent: string, userIp: string, now: int, secret: string, mac: Mac): (r: TtlReply)
      reads this
      ensures r.Remaining? <==> ticket != "" && Check(ticket, userAgent, userIp, "fetch", now, secret, mac).ok && ticket in expiry
      ensures r.Remaining? ==> ticket in expiry && now + r.seconds == expiry[ticket]
    {
      TtlSpec(State(), ticket, userAgent, userIp, now, secret, mac)
    }

    /** The admin delete of a `MemMap` key (main.go:1074-1077). */
    method Delete(key: string)
      modifies this
      ensures State() == DeleteSpec(old(State()), key)
    {
      values := values - {key};
      expiry := expiry - {key};
    }

    /** One pass of `clearExpiredTicket` (main.go:113-123): a `Range` over `MemMapTTL` deleting as it goes. */
    method Sweep(now: int)
      modifies this
      ensures State() == SweepSpec(old(State()), now)
    {
      ghost var values0, expiry0 := values, expiry;
      ghost var gone := ExpiredAt(expiry0, now);
      var pending := expiry.Keys;
      while pending != {}
        invariant pending <= expiry0.Keys
        invariant values == values0 - (gone - pending)
        invariant expiry == expiry0 - (gone - pending)
        decreases |pending|
      {
        var k :| k in pending;
        VisitOneMore(values0, gone, pending, k);
        VisitOneMore(expiry0, gone, pending, k);
        if now >= expiry[k] {
          values := values - {k};
          expiry := expiry - {k};
        }
        pending := pending - {k};
      }
    }
  }
}
