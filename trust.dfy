/**
 * The trusted-IP store `MemTrustIpMap` (main.go:59-65): client IP -> login
 * count and expiry. A successful login bumps the entry of its IP; while an
 * entry is present the second factor is skipped for that IP.
 */
module TrustIp {
  import opened Wrappers
  import opened Decimal
  import opened Expiry

  /** `TrustIpStruct`. */
  datatype TrustEntry = TrustEntry(totalLoginCount: int, expired: int)

  /** The expiry `clearExpiredIp` compares with its cutoff (main.go:132). */
  function ExpiredOf(e: TrustEntry): int { e.expired }

  /**
   * The read-modify-write of `successReturn` (main.go:1220-1230): with a
   * positive duration `d`, the entry of `ip` counts one more login (one for a
   * new IP) and expires at `now + d`; otherwise nothing changes.
   */
  function Bump(m: map<string, TrustEntry>, ip: string, duration: string, now: int): (r: map<string, TrustEntry>)
    ensures PositiveAtoi(duration).None? ==> r == m
    ensures PositiveAtoi(duration).Some? ==>
      ip in r && r[ip].expired == now + PositiveAtoi(duration).value &&
      r[ip].totalLoginCount == (if ip in m then m[ip].totalLoginCount + 1 else 1)
    ensures r.Keys == m.Keys || r.Keys == m.Keys + {ip}
    ensures forall k :: k in m && k != ip ==> r[k] == m[k]
  {
    match PositiveAtoi(duration)
    case None => m
    case Some(d) =>
      if ip !in m then m[ip := TrustEntry(1, now + d)]
      else m[ip := TrustEntry(m[ip].totalLoginCount + 1, now + d)]
  }

  /** The trust map after successive logins from `ip` at the times in `times`. */
  function Logins(m: map<string, TrustEntry>, ip: string, duration: string, times: seq<int>): map<string, TrustEntry>
    decreases |times|
  {
    if times == [] then m
    else Bump(Logins(m, ip, duration, times[..|times| - 1]), ip, duration, times[|times| - 1])
  }

  /**
   * Accrual: starting without an entry for `ip`, n >= 1 logins leave the
   * count at n and the expiry at the last login time plus the duration.
   */
  lemma {:induction false} TrustAccrual(m: map<string, TrustEntry>, ip: string, duration: string, times: seq<int>)
    requires ip !in m && PositiveAtoi(duration).Some? && times != []
    ensures var r := Logins(m, ip, duration, times);
      ip in r && r[ip] == TrustEntry(|times|, times[|times| - 1] + PositiveAtoi(duration).value)
    decreases |times|
  {
    var init := times[..|times| - 1];
    if init != [] {
      TrustAccrual(m, ip, duration, init);
      assert init[|init| - 1] == times[|times| - 2];
    }
  }

  /**
   * A login followed by a sweep: the entry survives exactly when the sweep's
   * cutoff is before the login time plus the duration.
   */
  lemma BumpThenSweep(m: map<string, TrustEntry>, ip: string, duration: string, now: int, later: int)
    requires PositiveAtoi(duration).Some?
    ensures ip in Prune(Bump(m, ip, duration, now), ExpiredOf, later) <==> later < now + PositiveAtoi(duration).value
  {
  }

  /** `MemTrustIpMap`, updated in place. */
  class TrustIpStore {
    var entries: map<string, TrustEntry>

    constructor ()
      ensures entries == map[]
    {
      entries := map[];
    }

    /** The presence test of `doTwoFactorAuthenticationCheck` (main.go:1322); the expiry is not consulted. */
    function Trusted(ip: string): (r: bool)
      reads this
      ensures r <==> ip in entries
    {
      ip in entries
    }

    /** The update of `successReturn` (main.go:1220-1230). */
    method Increment(ip: string, duration: string, now: int)
      modifies this
      ensures entries == Bump(old(entries), ip, duration, now)
    {
      var parsed := Atoi(duration);
      if parsed.Some? && parsed.value > 0 {
        var d := parsed.value;
        if ip !in entries {
          entries := entries[ip := TrustEntry(1, now + d)];
        } else {
          entries := entries[ip := TrustEntry(entries[ip].totalLoginCount + 1, now + d)];
        }
      }
    }

    /** The admin delete (main.go:1068-1070). */
    method Delete(ip: string)
      modifies this
      ensures entries == old(entries) - {ip}
    {
      entries := entries - {ip};
    }

    /** One pass of `clearExpiredIp` (main.go:130-137). */
    method Sweep(now: int)
      modifies this
      ensures entries == Prune(old(entries), ExpiredOf, now)
    {
      ghost var entries0 := entries;
      ghost var gone := ExpiredKeys(entries0, ExpiredOf, now);
      var pending := entries.Keys;
      while pending != {}
        invariant pending <= entries0.Keys
        invariant entries == entries0 - (gone - pending)
        decreases |pending|
      {
        var k :| k in pending;
        VisitOneMore(entries0, gone, pending, k);
        if now >= entries[k].expired {
          entries := entries - {k};
        }
        pending := pending - {k};
      }
    }
  }

  /**
   * Trust as the gate sees it after a login: the IP is trusted exactly when
   * it was before or the trust duration is in effect, and the answer for
   * every other IP is unchanged.
   */
  lemma TrustedAfterLogin(store: TrustIpStore, m: map<string, TrustEntry>, ip: string, duration: string, now: int)
    requires store.entries == Bump(m, ip, duration, now)
    ensures store.Trusted(ip) <==> ip in m || PositiveAtoi(duration).Some?
    ensures forall k :: k != ip ==> (store.Trusted(k) <==> k in m)
  {
  }
}
