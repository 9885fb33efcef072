/**
 * The shape shared by the three sweepers `clearExpiredTicket`,
 * `clearExpiredIp` and `clearForbiddenIp` (main.go:110-152): one `Range`
 * pass with a single cutoff `now` that deletes every entry whose expiry is
 * reached (`now >= expiry`) and leaves every other entry alone.
 */
module Expiry {

  /** The keys whose expiry, read by `at`, is reached at `now`. */
  function ExpiredKeys<V>(m: map<string, V>, at: V -> int, now: int): (r: set<string>)
    ensures forall k :: k in r <==> k in m && now >= at(m[k])
  {
    set k | k in m && now >= at(m[k])
  }

  /** What a sweep pass leaves of `m`. */
  function Prune<V>(m: map<string, V>, at: V -> int, now: int): (r: map<string, V>)
    ensures forall k :: k in r <==> k in m && now < at(m[k])
    ensures forall k :: k in r ==> r[k] == m[k]
  {
    m - ExpiredKeys(m, at, now)
  }

  /** Two passes are one pass with the later cutoff; in particular a pass is idempotent. */
  lemma PruneCompose<V>(m: map<string, V>, at: V -> int, a: int, b: int)
    ensures Prune(Prune(m, at, a), at, b) == Prune(m, at, if a < b then b else a)
  {
    var l, r := Prune(Prune(m, at, a), at, b), Prune(m, at, if a < b then b else a);
    assert l.Keys == r.Keys;
  }

  /**
   * The step of a sweep loop: the keys still pending are untouched, the
   * visited expired ones are gone; visiting `k` removes it exactly when it
   * is expired.
   */
  lemma VisitOneMore<V>(m: map<string, V>, gone: set<string>, pending: set<string>, k: string)
    requires k in pending
    ensures k in gone ==> (m - (gone - pending)) - {k} == m - (gone - (pending - {k}))
    ensures k !in gone ==> m - (gone - pending) == m - (gone - (pending - {k}))
  {
    assert k in gone ==> gone - (pending - {k}) == (gone - pending) + {k};
    assert k !in gone ==> gone - (pending - {k}) == gone - pending;
  }
}
