/**
 * The login flow around the stores: the TTL clamp and ticket issue of the
 * scan page, the second-factor gate `doTwoFactorAuthenticationCheck`, the
 * store updates of `successReturn`, the two ways a login completes (the
 * DingTalk callback and the local development path) and the admin delete.
 * Identity resolution against DingTalk is an input (`Identity`), and so is
 * the outcome of the call to the external second-factor verifier.
 */
module Login {
  import opened Wrappers
  import opened Decimal
  import opened Net
  import opened Ticket
  import Counter
  import Sessions
  import TrustIp
  import Forbidden
  import Expiry

  const DefaultTtl: int := 30
  const Proceed: string := ""
  const Exit: string := "exit"
  const VerifierUnreachable: string := "--0--"
  const VerifierSuccess: string := "--success--"
  const GateOn: string := "on"

  /** The fields of `SsoUserInfoStruct` the core reads. */
  datatype Profile = Profile(ssoName: string, ssoContactType: int, ssoMobile: string, ssoDingdingOpenId: string)

  /** The user the development path logs in (main.go:864). */
  const DevProfile: Profile := Profile("潘dev", 0, "", "xxxxx")

  /**
   * The TTL of a new ticket (main.go:820-840): the `ttl` query value when it
   * parses, the configured `ticket_max_ttl` parses, and it lies in
   * 1..ticket_max_ttl; 30 seconds otherwise.
   */
  function ClampTtl(ttlParam: Option<string>, maxTtl: string): (r: int)
    ensures r == DefaultTtl ||
      (ttlParam.Some? && Atoi(ttlParam.value) == Some(r) && Atoi(maxTtl).Some? && 0 < r <= Atoi(maxTtl).value)
    ensures (ttlParam.Some? && Atoi(ttlParam.value).Some? && Atoi(maxTtl).Some? &&
             0 < Atoi(ttlParam.value).value <= Atoi(maxTtl).value) ==> r == Atoi(ttlParam.value).value
  {
    match ttlParam
    case None => DefaultTtl
    case Some(raw) =>
      match Atoi(raw)
      case None => DefaultTtl
      case Some(ttl) =>
        match Atoi(maxTtl)
        case None => DefaultTtl
        case Some(max) => if ttl <= 0 || ttl > max then DefaultTtl else ttl
  }

  /**
   * With a configured maximum below 90000 every issued ticket has 86
   * characters, so it passes `checkTicket` in fetch mode with its own TTL.
   */
  lemma ClampedTtlFitsTicket(ttlParam: Option<string>, maxTtl: string)
    requires Atoi(maxTtl).Some? && Atoi(maxTtl).value < 90000
    ensures 0 < ClampTtl(ttlParam, maxTtl) < 90000
  {
  }

  /** What the call to the external verifier (`checkTwoFactorAuthenticationForm`) produced. */
  datatype VerifierCall =
    | NotSent   // marshalling failed, no `two_factor_authentication_url`, or the request could not be built or sent
    | Answered(body: string)

  /** The string `checkTwoFactorAuthenticationForm` returns (main.go:1396-1434). */
  function Verdict2fa(call: VerifierCall): (v: string)
    ensures v == VerifierSuccess <==> call.Answered? && (call.body == "success" || call.body == VerifierSuccess)
    ensures v == VerifierUnreachable <==> call.NotSent? || call.body == VerifierUnreachable
    ensures call.Answered? && call.body != "success" ==> v == call.body
  {
    match call
    case NotSent => VerifierUnreachable
    case Answered(body) => if body == "success" then VerifierSuccess else body
  }

  /** The verifier answered with a rejection: neither an error nor a success. */
  predicate Refused(call: VerifierCall)
  {
    Verdict2fa(call) != VerifierUnreachable && Verdict2fa(call) != VerifierSuccess
  }

  datatype GateStep = GateStep(result: string, forbidden: map<string, Forbidden.ForbiddenEntry>)

  /**
   * `doTwoFactorAuthenticationCheck` (main.go:1321-1356). It proceeds ("")
   * when the IP is in the trust map, the feature is not "on", or a POST whose
   * form parses gets a success from the verifier; otherwise it stops
   * ("exit"). A refusal blocks the user's OpenId until `now` plus the
   * configured block duration, when that duration is a positive integer.
   */
  function GateSpec(trusted: bool, mode: string, isGet: bool, formParsed: bool, call: VerifierCall,
                    blockDuration: string, now: int, profile: Profile,
                    forbidden: map<string, Forbidden.ForbiddenEntry>): (r: GateStep)
    ensures r.result == Proceed <==> trusted || mode != GateOn || (!isGet && formParsed && Verdict2fa(call) == VerifierSuccess)
    ensures r.result == Proceed || r.result == Exit
    ensures r.forbidden.Keys <= forbidden.Keys + {profile.ssoDingdingOpenId}
    ensures forall k :: k in forbidden && k != profile.ssoDingdingOpenId ==> k in r.forbidden && r.forbidden[k] == forbidden[k]
    ensures r.forbidden != forbidden ==>
      !trusted && mode == GateOn && !isGet && formParsed && Refused(call) && PositiveAtoi(blockDuration).Some?
    ensures !trusted && mode == GateOn && !isGet && formParsed && Refused(call) && PositiveAtoi(blockDuration).Some? ==>
      var id := profile.ssoDingdingOpenId;
      id in r.forbidden && r.forbidden[id] == Forbidden.ForbiddenEntry(profile.ssoName, profile.ssoContactType,
                                                                        profile.ssoMobile, now + PositiveAtoi(blockDuration).value)
  {
    if trusted || mode != GateOn then GateStep(Proceed, forbidden)
    else if isGet || !formParsed then GateStep(Exit, forbidden)
    else
      var v := Verdict2fa(call);
      if v == VerifierUnreachable then GateStep(Exit, forbidden)
      else if v != VerifierSuccess then
        match PositiveAtoi(blockDuration)
        case Some(d) =>
          GateStep(Exit, forbidden[profile.ssoDingdingOpenId :=
            Forbidden.ForbiddenEntry(profile.ssoName, profile.ssoContactType, profile.ssoMobile, now + d)])
        case None => GateStep(Exit, forbidden)
      else GateStep(Proceed, forbidden)
  }

  /**
   * The block is written under the OpenId, while the scan page looks up the
   * client IP (main.go:845): a refusal never makes the scan page reject an
   * IP it admitted before, unless the OpenId is literally that IP string.
   */
  lemma BlockDoesNotGuardScanPage(trusted: bool, mode: string, isGet: bool, formParsed: bool, call: VerifierCall,
                                  blockDuration: string, now: int, profile: Profile,
                                  forbidden: map<string, Forbidden.ForbiddenEntry>, userIp: string)
    requires userIp !in forbidden && profile.ssoDingdingOpenId != userIp
    ensures userIp !in GateSpec(trusted, mode, isGet, formParsed, call, blockDuration, now, profile, forbidden).forbidden
  {
  }

  /**
   * The trust test is presence only: an entry whose expiry has passed but
   * that no sweep has removed yet still skips the second factor, although
   * the next sweep drops it.
   */
  lemma UnsweptTrustSkipsGate(trust: map<string, TrustIp.TrustEntry>, userIp: string, now: int,
                              mode: string, isGet: bool, formParsed: bool, call: VerifierCall,
                              blockDuration: string, profile: Profile,
                              forbidden: map<string, Forbidden.ForbiddenEntry>)
    requires userIp in trust && now >= trust[userIp].expired
    ensures GateSpec(userIp in trust, mode, isGet, formParsed, call, blockDuration, now, profile, forbidden)
      == GateStep(Proceed, forbidden)
    ensures GateSpec(userIp in Expiry.Prune(trust, TrustIp.ExpiredOf, now), mode, isGet, formParsed, call, blockDuration, now, profile, forbidden).result
      == (if mode != GateOn || (!isGet && formParsed && Verdict2fa(call) == VerifierSuccess) then Proceed else Exit)
  {
  }

  /**
   * `doTwoFactorAuthenticationCheck` on the stores: it reads the trust map
   * and may write the block list.
   */
  method TwoFactorCheck(trust: TrustIp.TrustIpStore, forbidden: Forbidden.ForbiddenStore, profile: Profile, isGet: bool,
                        userIp: string, mode: string, formParsed: bool, call: VerifierCall, blockDuration: string, now: int)
    returns (result: string)
    modifies forbidden
    ensures GateStep(result, forbidden.entries)
      == GateSpec(userIp in trust.entries, mode, isGet, formParsed, call, blockDuration, now, profile, old(forbidden.entries))
  {
    if !trust.Trusted(userIp) && mode == GateOn {
      if isGet {
        return Exit;
      }
      if !formParsed {
        return Exit;
      }
      var check := Verdict2fa(call);
      if check == VerifierUnreachable {
        return Exit;
      }
      if check != VerifierSuccess {
        var parsed := Atoi(blockDuration);
        if parsed.Some? && parsed.value > 0 {
          forbidden.Block(profile.ssoDingdingOpenId,
            Forbidden.ForbiddenEntry(profile.ssoName, profile.ssoContactType, profile.ssoMobile, now + parsed.value));
        }
        return Exit;
      }
    }
    return Proceed;
  }

  /**
   * The store updates of `successReturn` (main.go:1182-1230): the session
   * under the ticket until `now + ttl`, then the trust entry of the IP.
   * `payload` is the marshalled profile carrying the ticket.
   */
  method SuccessReturn(sessions: Sessions.SessionStore, trust: TrustIp.TrustIpStore, ticket: string, payload: string,
                       ttl: int, userIp: string, trustDuration: string, now: int)
    modifies sessions, trust
    ensures sessions.State() == Sessions.PutSpec(old(sessions.State()), ticket, payload, now + ttl)
    ensures trust.entries == TrustIp.Bump(old(trust.entries), userIp, trustDuration, now)
  {
    sessions.Put(ticket, payload, now + ttl);
    trust.Increment(userIp, trustDuration, now);
  }

  /**
   * A login earns trust: after `successReturn` with a positive trust
   * duration, the next gate for the same IP proceeds without writing a block.
   */
  lemma LoginEarnsTrust(trust: map<string, TrustIp.TrustEntry>, userIp: string, trustDuration: string, now: int,
                        mode: string, isGet: bool, formParsed: bool, call: VerifierCall, blockDuration: string, later: int,
                        profile: Profile, forbidden: map<string, Forbidden.ForbiddenEntry>)
    requires PositiveAtoi(trustDuration).Some?
    ensures GateSpec(userIp in TrustIp.Bump(trust, userIp, trustDuration, now), mode, isGet, formParsed, call,
                     blockDuration, later, profile, forbidden) == GateStep(Proceed, forbidden)
  {
  }

  /** How DingTalk resolved the scanning user (the lookup chain of main.go:404-692). */
  datatype Identity =
    | IdentityFailed(code: string)
    | Staff(profile: Profile)
    | External(profile: Profile)

  /** What a login attempt answers. */
  datatype LoginReply =
    | Refusal(code: string)   // an `EchoJs` error before any store change other than a block
    | GateStopped             // the gate answered "exit"
    | NotLocal                // the development path called from another host
    | LoggedIn(payload: string)

  /** The marshalled profile with `SsoTicket` set to the ticket. */
  type Marshal = (Profile, string) -> string

  /**
   * The end of a login once the ticket is checked and the user known
   * (main.go:685-692 and 870-873): staff go through the gate, then
   * `successReturn` stores the session for `ttl` and bumps trust.
   */
  method Admit(sessions: Sessions.SessionStore, trust: TrustIp.TrustIpStore, forbidden: Forbidden.ForbiddenStore,
               profile: Profile, staff: bool, ticket: string, ttl: int, userIp: string, isGet: bool, mode: string,
               formParsed: bool, call: VerifierCall, blockDuration: string, trustDuration: string, now: int, marshal: Marshal)
    returns (reply: LoginReply)
    modifies sessions, trust, forbidden
    ensures reply.LoggedIn? <==>
      !staff || GateSpec(userIp in old(trust.entries), mode, isGet, formParsed, call, blockDuration, now, profile,
                         old(forbidden.entries)).result == Proceed
    ensures reply.LoggedIn? ==>
      reply.payload == marshal(profile, ticket) &&
      sessions.State() == Sessions.PutSpec(old(sessions.State()), ticket, reply.payload, now + ttl) &&
      trust.entries == TrustIp.Bump(old(trust.entries), userIp, trustDuration, now)
    ensures !reply.LoggedIn? ==> reply == GateStopped && unchanged(sessions, trust)
    ensures staff ==>
      forbidden.entries == GateSpec(userIp in old(trust.entries), mode, isGet, formParsed, call, blockDuration, now,
                                    profile, old(forbidden.entries)).forbidden
    ensures !staff ==> unchanged(forbidden)
  {
    if staff {
      var gate := TwoFactorCheck(trust, forbidden, profile, isGet, userIp, mode, formParsed, call, blockDuration, now);
      if gate == Exit {
        return GateStopped;
      }
    }
    var payload := marshal(profile, ticket);
    SuccessReturn(sessions, trust, ticket, payload, ttl, userIp, trustDuration, now);
    return LoggedIn(payload);
  }

  /**
   * The callback once its ticket has passed with `ttl` (main.go:463-692): the
   * access token that identity resolution stored, if any, lands in `MemMap`;
   * a failed resolution is refused with its code; otherwise `Admit`.
   */
  method Resolve(sessions: Sessions.SessionStore, trust: TrustIp.TrustIpStore, forbidden: Forbidden.ForbiddenStore,
                 ticket: string, ttl: int, userIp: string, isGet: bool, identity: Identity, tokenStored: Option<string>,
                 mode: string, formParsed: bool, call: VerifierCall, blockDuration: string, trustDuration: string,
                 now: int, marshal: Marshal)
    returns (reply: LoginReply)
    modifies sessions, trust, forbidden
    ensures identity.IdentityFailed? ==> reply == Refusal(identity.code)
    ensures reply.LoggedIn? <==>
      !identity.IdentityFailed? &&
      (identity.External? ||
       GateSpec(userIp in old(trust.entries), mode, isGet, formParsed, call, blockDuration, now, identity.profile,
                old(forbidden.entries)).result == Proceed)
    ensures identity.Staff? && !reply.LoggedIn? ==> reply == GateStopped
    ensures reply.LoggedIn? ==>
      reply.payload == marshal(identity.profile, ticket) &&
      sessions.State() == Sessions.PutSpec(Sessions.CacheToken(old(sessions.State()), tokenStored), ticket, reply.payload, now + ttl) &&
      trust.entries == TrustIp.Bump(old(trust.entries), userIp, trustDuration, now)
    ensures !reply.LoggedIn? ==> sessions.State() == Sessions.CacheToken(old(sessions.State()), tokenStored) && unchanged(trust)
    ensures identity.Staff? ==>
      forbidden.entries == GateSpec(userIp in old(trust.entries), mode, isGet, formParsed, call, blockDuration, now,
                                    identity.profile, old(forbidden.entries)).forbidden
    ensures !identity.Staff? ==> unchanged(forbidden)
  {
    if tokenStored.Some? {
      sessions.StoreAccessToken(tokenStored.value);
    }
    if identity.IdentityFailed? {
      return Refusal(identity.code);
    }
    reply := Admit(sessions, trust, forbidden, identity.profile, identity.Staff?, ticket, ttl, userIp, isGet, mode,
                   formParsed, call, blockDuration, trustDuration, now, marshal);
  }

  /**
   * The callback `scanSuccessHandler` (main.go:374-692) after identity
   * resolution: the ticket must pass `checkTicket` in scan mode; the access
   * token that resolution stored, if any, lands in `MemMap`; staff pass the
   * gate, external contacts do not meet it; then `successReturn`.
   */
  method ScanSuccess(sessions: Sessions.SessionStore, trust: TrustIp.TrustIpStore, forbidden: Forbidden.ForbiddenStore,
                     ticket: string, userAgent: string, userIp: string, isGet: bool, identity: Identity,
                     tokenStored: Option<string>,
                     mode: string, formParsed: bool, call: VerifierCall, blockDuration: string, trustDuration: string,
                     now: int, secret: string, mac: Mac, marshal: Marshal)
    returns (reply: LoginReply)
    modifies sessions, trust, forbidden
    ensures var v := Check(ticket, userAgent, userIp, ScanMode, now, secret, mac);
      !v.ok ==> reply == Refusal("err:23") && unchanged(sessions, trust, forbidden)
    ensures reply.LoggedIn? <==>
      Check(ticket, userAgent, userIp, ScanMode, now, secret, mac).ok && !identity.IdentityFailed? &&
      (identity.External? ||
       GateSpec(userIp in old(trust.entries), mode, isGet, formParsed, call, blockDuration, now, identity.profile,
                old(forbidden.entries)).result == Proceed)
    ensures reply.LoggedIn? ==>
      var v := Check(ticket, userAgent, userIp, ScanMode, now, secret, mac);
      reply.payload == marshal(identity.profile, ticket) &&
      sessions.State() == Sessions.PutSpec(Sessions.CacheToken(old(sessions.State()), tokenStored), ticket, reply.payload, now + v.ttl) &&
      trust.entries == TrustIp.Bump(old(trust.entries), userIp, trustDuration, now)
    ensures !reply.LoggedIn? && Check(ticket, userAgent, userIp, ScanMode, now, secret, mac).ok ==>
      sessions.State() == Sessions.CacheToken(old(sessions.State()), tokenStored)
    ensures Check(ticket, userAgent, userIp, ScanMode, now, secret, mac).ok && identity.IdentityFailed? ==>
      reply == Refusal(identity.code)
    ensures Check(ticket, userAgent, userIp, ScanMode, now, secret, mac).ok && identity.Staff? ==>
      (GateSpec(userIp in old(trust.entries), mode, isGet, formParsed, call, blockDuration, now, identity.profile,
                old(forbidden.entries)).result != Proceed
       ==> reply == GateStopped)
    ensures !reply.LoggedIn? ==> unchanged(trust)
    ensures identity.Staff? && Check(ticket, userAgent, userIp, ScanMode, now, secret, mac).ok ==>
      forbidden.entries == GateSpec(userIp in old(trust.entries), mode, isGet, formParsed, call, blockDuration, now,
                                    identity.profile, old(forbidden.entries)).forbidden
    ensures !identity.Staff? ==> unchanged(forbidden)
  {
    var v := Check(ticket, userAgent, userIp, ScanMode, now, secret, mac);
    if !v.ok {
      return Refusal("err:23");
    }
    reply := Resolve(sessions, trust, forbidden, ticket, v.ttl, userIp, isGet, identity, tokenStored, mode, formParsed,
                     call, blockDuration, trustDuration, now, marshal);
  }

  /**
   * End to end: a ticket issued for `ttl` and presented to the callback
   * within 100 seconds of its timestamp passes the scan check with that TTL;
   * once stored by `successReturn` it can be redeemed without renewal
   * strictly before `ttl` seconds have passed, and is gone from then on.
   */
  lemma IssuedTicketRedeemable(s: Sessions.Sessions, userAgent: string, userIp: string, ttl: int, nowMs: int, counter: int,
                               secret: string, mac: Mac, payload: string, loginNow: int, later: int,
                               remoteAddr: string, allowTicketRenew: Option<string>)
    requires WellFormedMac(mac) && IsTimestampMs(nowMs) && Counter.InRange(counter) && 0 <= ttl < 90000
    requires loginNow <= nowMs / 1000 + ScanGrace
    ensures var t := Generate(userAgent, userIp, ttl, nowMs, counter, secret, mac);
      Check(t, userAgent, userIp, ScanMode, loginNow, secret, mac) == Verdict(true, ttl) &&
      Sessions.FetchByTicketSpec(Sessions.PutSpec(s, t, payload, loginNow + ttl), t, "", userAgent, userIp, remoteAddr,
                                 allowTicketRenew, later, secret, mac).reply
        == if later < loginNow + ttl then Sessions.Payload(payload) else Sessions.Failure(Sessions.ErrGone)
  {
    var t := Generate(userAgent, userIp, ttl, nowMs, counter, secret, mac);
    ScanWindow(userAgent, userIp, ttl, nowMs, counter, secret, mac, loginNow);
    RoundTrip(userAgent, userIp, ttl, nowMs, counter, secret, mac, "fetch", later);
    MintedLayout(userAgent, userIp, ttl, nowMs, counter, secret, mac);
    Sessions.PutThenFetch(s, t, payload, loginNow, ttl, later, ttl, Sessions.Keep);
  }

  /** What the scan page answers. */
  datatype ScanReply = ScanRefused(code: string) | DevReply(login: LoginReply) | Issued(ticket: string)

  /**
   * What the development path of `scanHandler` (main.go:855-877) does with
   * the `dev` ticket `dev`: only the local host gets past the greeting
   * (`NotLocal`); the ticket must pass the scan check ("err:23") and the user
   * name of `DevProfile` must not be blocked ("err:33"), all without touching
   * the stores; then the gate decides as on a callback, and a login stores
   * the session for the ticket's own TTL and bumps trust.
   */
  twostate predicate DevPathDone(sessions: Sessions.SessionStore, trust: TrustIp.TrustIpStore,
                                 forbidden: Forbidden.ForbiddenStore, dev: string, remoteAddr: string,
                                 userAgent: string, userIp: string, isGet: bool, mode: string, formParsed: bool,
                                 call: VerifierCall, blockDuration: string, trustDuration: string, now: int,
                                 secret: string, mac: Mac, marshal: Marshal, login: LoginReply)
    reads sessions, trust, forbidden
  {
    var v := Check(dev, userAgent, userIp, ScanMode, now, secret, mac);
    && (HostOf(remoteAddr) != Loopback ==> login == NotLocal && unchanged(sessions, trust, forbidden))
    && (HostOf(remoteAddr) == Loopback && !v.ok ==> login == Refusal("err:23") && unchanged(sessions, trust, forbidden))
    && (HostOf(remoteAddr) == Loopback && v.ok && DevProfile.ssoName in old(forbidden.entries) ==>
          login == Refusal("err:33") && unchanged(sessions, trust, forbidden))
    && (HostOf(remoteAddr) == Loopback && v.ok && DevProfile.ssoName !in old(forbidden.entries) ==>
          var g := GateSpec(userIp in old(trust.entries), mode, isGet, formParsed, call, blockDuration, now, DevProfile,
                            old(forbidden.entries));
          forbidden.entries == g.forbidden &&
          login == (if g.result == Proceed then LoggedIn(marshal(DevProfile, dev)) else GateStopped))
    && (login.LoggedIn? ==>
          sessions.State() == Sessions.PutSpec(old(sessions.State()), dev, login.payload, now + v.ttl) &&
          trust.entries == TrustIp.Bump(old(trust.entries), userIp, trustDuration, now))
    && (!login.LoggedIn? ==> unchanged(sessions, trust))
  }

  /** The development path of `scanHandler` (main.go:855-877). */
  method DevLogin(sessions: Sessions.SessionStore, trust: TrustIp.TrustIpStore, forbidden: Forbidden.ForbiddenStore,
                  dev: string, remoteAddr: string, userAgent: string, userIp: string, isGet: bool, mode: string,
                  formParsed: bool, call: VerifierCall, blockDuration: string, trustDuration: string, now: int,
                  secret: string, mac: Mac, marshal: Marshal)
    returns (login: LoginReply)
    modifies sessions, trust, forbidden
    ensures DevPathDone(sessions, trust, forbidden, dev, remoteAddr, userAgent, userIp, isGet, mode, formParsed, call,
                        blockDuration, trustDuration, now, secret, mac, marshal, login)
  {
    if HostOf(remoteAddr) != Loopback {
      return NotLocal;
    }
    var v := Check(dev, userAgent, userIp, ScanMode, now, secret, mac);
    if !v.ok {
      return Refusal("err:23");
    }
    if forbidden.Blocked(DevProfile.ssoName) {
      return Refusal("err:33");
    }
    login := Admit(sessions, trust, forbidden, DevProfile, true, dev, v.ttl, userIp, isGet, mode, formParsed, call,
                   blockDuration, trustDuration, now, marshal);
  }

  /**
   * `scanHandler` (main.go:805-962) without the page rendering: the block
   * list is checked by client IP ("err:31"); a `dev` ticket goes down the
   * development path; otherwise a fresh ticket is issued for the clamped TTL.
   * A request from 127.0.0.1 without `auto=1` gets the local test page, which
   * reads the counter once more (main.go:962).
   */
  method Scan(counter: Counter.SharedCounter, sessions: Sessions.SessionStore, trust: TrustIp.TrustIpStore,
              forbidden: Forbidden.ForbiddenStore, ttlParam: Option<string>, maxTtl: string, devTicket: Option<string>,
              auto: string, remoteAddr: string, userAgent: string, userIp: string, isGet: bool, mode: string,
              formParsed: bool, call: VerifierCall, blockDuration: string, trustDuration: string, nowMs: int, now: int,
              secret: string, mac: Mac, marshal: Marshal)
    returns (reply: ScanReply)
    requires counter.Valid()
    modifies counter, sessions, trust, forbidden
    ensures counter.Valid()
    ensures userIp in old(forbidden.entries) ==> reply == ScanRefused("err:31") && unchanged(counter, sessions, trust, forbidden)
    ensures userIp !in old(forbidden.entries) && devTicket.None? ==> reply.Issued? && unchanged(sessions, trust, forbidden)
    ensures userIp !in old(forbidden.entries) && devTicket.Some? ==> reply.DevReply? && unchanged(counter)
    ensures reply.Issued? ==>
      userIp !in old(forbidden.entries) && devTicket.None? &&
      reply.ticket == Generate(userAgent, userIp, ClampTtl(ttlParam, maxTtl), nowMs, Counter.Step(old(counter.value)), secret, mac) &&
      counter.value == if auto != "1" && HostOf(remoteAddr) == Loopback
                       then Counter.Step(Counter.Step(old(counter.value)))
                       else Counter.Step(old(counter.value))
    ensures reply.Issued? && WellFormedMac(mac) && IsTimestampMs(nowMs) && Atoi(maxTtl).Some? && Atoi(maxTtl).value < 90000 ==>
      forall later :: Check(reply.ticket, userAgent, userIp, "fetch", later, secret, mac) == Verdict(true, ClampTtl(ttlParam, maxTtl))
    ensures reply.DevReply? ==>
      devTicket.Some? &&
      DevPathDone(sessions, trust, forbidden, devTicket.value, remoteAddr, userAgent, userIp, isGet, mode, formParsed, call,
                  blockDuration, trustDuration, now, secret, mac, marshal, reply.login)
    ensures !reply.DevReply? ==> unchanged(sessions, trust)
  {
    if forbidden.Blocked(userIp) {
      return ScanRefused("err:31");
    }
    if devTicket.Some? {
      var login := DevLogin(sessions, trust, forbidden, devTicket.value, remoteAddr, userAgent, userIp, isGet, mode,
                            formParsed, call, blockDuration, trustDuration, now, secret, mac, marshal);
      return DevReply(login);
    }
    var ttl := ClampTtl(ttlParam, maxTtl);
    if Atoi(maxTtl).Some? && Atoi(maxTtl).value < 90000 {
      ClampedTtlFitsTicket(ttlParam, maxTtl);
    }
    var t := Mint(counter, userAgent, userIp, ttl, nowMs, secret, mac);
    if auto != "1" && HostOf(remoteAddr) == Loopback {
      // the local test page shows one more counter reading
      var _ := counter.Next();
    }
    return Issued(t);
  }

  /**
   * The admin delete (main.go:1062-1077): only from the local host, only
   * with both form values present; the name selects the store, and a session
   * leaves both of its maps.
   */
  method ManagerDelete(sessions: Sessions.SessionStore, trust: TrustIp.TrustIpStore, forbidden: Forbidden.ForbiddenStore,
                       remoteAddr: string, mapName: string, mapKey: string)
    modifies sessions, trust, forbidden
    ensures HostOf(remoteAddr) != Loopback || mapName == "" || mapKey == "" ==> unchanged(sessions, trust, forbidden)
    ensures trust.entries == if HostOf(remoteAddr) == Loopback && mapKey != "" && mapName == "MemTrustIpMap"
                             then old(trust.entries) - {mapKey} else old(trust.entries)
    ensures forbidden.entries == if HostOf(remoteAddr) == Loopback && mapKey != "" && mapName == "MemForbiddenMap"
                                 then old(forbidden.entries) - {mapKey} else old(forbidden.entries)
    ensures sessions.State() == if HostOf(remoteAddr) == Loopback && mapKey != "" && mapName == "MemMap"
                                then Sessions.DeleteSpec(old(sessions.State()), mapKey) else old(sessions.State())
  {
    if HostOf(remoteAddr) != Loopback {
      return;
    }
    if mapName == "" || mapKey == "" {
      return;
    }
    if mapName == "MemTrustIpMap" {
      trust.Delete(mapKey);
    }
    if mapName == "MemForbiddenMap" {
      forbidden.Delete(mapKey);
    }
    if mapName == "MemMap" {
      sessions.Delete(mapKey);
    }
  }
}
