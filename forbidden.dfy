/**
 * The block list `MemForbiddenMap` (main.go:60, 67-72): key -> who was
 * blocked and until when. It is written when a second-factor answer is a
 * rejection (keyed by the DingTalk OpenId, main.go:1346) and read by the scan
 * page (keyed by the client IP, main.go:845) and by its development path
 * (keyed by the user name, main.go:865).
 */
module Forbidden {
  import opened Expiry

  /** `ForbiddenStruct`; the contact type is 0 for staff and 1 for an external contact. */
  datatype ForbiddenEntry = ForbiddenEntry(ssoName: string, ssoContactType: int, ssoMobile: string, expired: int)

  /** The expiry `clearForbiddenIp` compares with its cutoff (main.go:146). */
  function ExpiredOf(e: ForbiddenEntry): int { e.expired }

  /**
   * A block lasts from its write until a sweep with a cutoff at or past its
   * expiry: it is still present after any sweep before that second and gone
   * after any sweep from it on.
   */
  lemma BlockLifecycle(m: map<string, ForbiddenEntry>, key: string, e: ForbiddenEntry, sweepAt: int)
    ensures key in Prune(m[key := e], ExpiredOf, sweepAt) <==> sweepAt < e.expired
  {
  }

  /** `MemForbiddenMap`, updated in place. */
  class ForbiddenStore {
    var entries: map<string, ForbiddenEntry>

    constructor ()
      ensures entries == map[]
    {
      entries := map[];
    }

    /** A `Load` presence test (main.go:845, 865); the expiry is not consulted. */
    function Blocked(key: string): (r: bool)
      reads this
      ensures r <==> key in entries
    {
      key in entries
    }

    /** `MemForbiddenMap.Store(key, e)` (main.go:1346). */
    method Block(key: string, e: ForbiddenEntry)
      modifies this
      ensures entries == old(entries)[key := e]
    {
      entries := entries[key := e];
    }

    /** The admin delete (main.go:1071-1073). */
    method Delete(key: string)
      modifies this
      ensures entries == old(entries) - {key}
    {
      entries := entries - {key};
    }

    /** One pass of `clearForbiddenIp` (main.go:144-150). */
    method Sweep(now: int)
      modifies this
      ensures entries == Prune(old(entries), ExpiredOf, now)
    {
      ghost var entries0 := entries;
      ghost var gone := ExpiredKeys(entries0, ExpiredOf, now);
      var pending := entries.Keys;
      while pending != {}
        invariant pending <= entries0.Keys
        invariant entries == entries0 - (gone - pending)
        decreases |pending|
      {
        var k :| k in pending;
        VisitOneMore(entries0, gone, pending, k);
        if now >= entries[k].expired {
          entries := entries - {k};
        }
        pending := pending - {k};
      }
    }
  }

  /**
   * A block is lifted by the sweeper, not by its expiry: a key whose expiry
   * has passed is still blocked, and only a sweep at or after that second
   * removes it.
   */
  lemma BlockedUntilSwept(store: ForbiddenStore, key: string, now: int)
    requires key in store.entries && now >= store.entries[key].expired
    ensures store.Blocked(key)
    ensures key !in Prune(store.entries, ExpiredOf, now)
  {
  }
}
