/**
 * Client-address helpers: the host part of `RemoteAddr`, `GetIp`
 * (main.go:1270-1285) and `isInnerIp` (main.go:1287-1302).
 */
module Net {
  import opened Wrappers
  import opened Text

  const Loopback: string := "127.0.0.1"
  const AnyProxy: string := "0.0.0.0"

  /** `strings.Split(req.RemoteAddr, ":")[0]`. */
  function HostOf(remoteAddr: string): (host: string)
    ensures |host| <= |remoteAddr| && host == remoteAddr[..|host|] && ':' !in host
    ensures |host| < |remoteAddr| ==> remoteAddr[|host|] == ':'
  {
    FirstField(remoteAddr, ':')
  }

  lemma {:induction false} SplitWithoutSeparator(s: string, sep: char)
    requires sep !in s
    ensures Split(s, sep) == [s]
  {
    if |s| > 0 {
      SplitWithoutSeparator(s[1..], sep);
      assert [s[0]] + s[1..] == s;
    }
  }

  /** Second fields that `isInnerIp` accepts after a first field "172". */
  const Second172: set<string> :=
    {"16", "17", "18", "19", "20", "21", "22", "23", "24", "25", "26", "27", "28", "29", "30", "31"}

  /** A string that contains the separator splits into at least two pieces. */
  lemma {:induction false} SplitAtSeparator(s: string, sep: char)
    ensures sep in s ==> |Split(s, sep)| >= 2
  {
    if |s| > 0 && s[0] != sep {
      SplitAtSeparator(s[1..], sep);
      assert sep in s ==> sep in s[1..] by {
        assert s == [s[0]] + s[1..];
      }
    }
  }

  /**
   * `isInnerIp(ip)`, which splits on "," rather than on ".". `None` stands for
   * the index-out-of-range panic of `ipArr[1]` when the first field is "172"
   * or "192" and there is no second field.
   */
  function IsInnerIp(ip: string): (r: Option<bool>)
    ensures ip == Loopback || FirstField(ip, ',') == "10" ==> r == Some(true)
    ensures r == Some(true) ==> ip == Loopback || FirstField(ip, ',') in {"10", "172", "192"}
    ensures r.None? ==> FirstField(ip, ',') in {"172", "192"} && ',' !in ip
  {
    SplitAtSeparator(ip, ',');
    if ip == Loopback then Some(true)
    else
      var fields := Split(ip, ',');
      if fields[0] == "10" then Some(true)
      else if fields[0] == "172" then
        if |fields| < 2 then None else Some(fields[1] in Second172)
      else if fields[0] == "192" then
        if |fields| < 2 then None else Some(fields[1] == "168")
      else Some(false)
  }

  /**
   * For an address without a comma (every dotted IPv4 address) only the
   * loopback address and the bare string "10" count as internal, and the
   * bare strings "172" and "192" make the source panic.
   */
  lemma IsInnerIpWithoutComma(ip: string)
    requires ',' !in ip
    ensures IsInnerIp(ip) == if ip == "172" || ip == "192" then None else Some(ip == Loopback || ip == "10")
  {
    SplitWithoutSeparator(ip, ',');
  }

  /** Private dotted addresses are not recognised, since the fields are cut at commas. */
  lemma DottedPrivateAddressesNotInner()
    ensures IsInnerIp("10.0.0.1") == Some(false)
    ensures IsInnerIp("172.16.0.1") == Some(false)
    ensures IsInnerIp("192.168.1.1") == Some(false)
    ensures IsInnerIp("127.0.0.1") == Some(true)
  {
    IsInnerIpWithoutComma("10.0.0.1");
    IsInnerIpWithoutComma("172.16.0.1");
    IsInnerIpWithoutComma("192.168.1.1");
  }

  /**
   * For an address with at least two comma-separated fields the code reads
   * the first two: "10" in the first, "172" with 16..31, or "192" with "168".
   */
  lemma IsInnerIpWithCommas(a: string, b: string, rest: string)
    requires ',' !in a && ',' !in b
    requires rest == [] || rest[0] == ','
    ensures IsInnerIp(a + "," + b + rest)
      == Some(a == "10" || (a == "172" && b in Second172) || (a == "192" && b == "168"))
  {
    var ip := a + "," + b + rest;
    assert ip[|a|] == ',';
    assert ip != Loopback;
    assert ip == a + [','] + (b + rest);
    SplitAtFirst(a, b + rest, ',');
    var tail := Split(b + rest, ',');
    assert Split(ip, ',') == [a] + tail;
    FirstFieldIsPrefix(b + rest, ',');
    var f := tail[0];
    assert f == (b + rest)[..|f|] && (|f| < |b + rest| ==> (b + rest)[|f|] == ',');
    assert forall i :: 0 <= i < |b| ==> (b + rest)[i] == b[i];
    assert rest != [] ==> (b + rest)[|b|] == ',';
    assert |f| == |b|;
    assert f == b;
  }

  /** The first piece is everything before the first separator. */
  lemma {:induction false} SplitAtFirst(first: string, rest: string, sep: char)
    requires sep !in first
    ensures Split(first + [sep] + rest, sep) == [first] + Split(rest, sep)
  {
    if |first| > 0 {
      SplitAtFirst(first[1..], rest, sep);
      assert (first + [sep] + rest)[1..] == first[1..] + [sep] + rest;
      assert [first[0]] + first[1..] == first;
    } else {
      assert (first + [sep] + rest)[1..] == rest;
    }
  }

  /** One of the configured `trusted_proxies` entries is the peer itself or "0.0.0.0". */
  predicate ProxyTrusted(remoteIp: string, trustedProxies: string)
  {
    exists p :: p in Split(trustedProxies, ',') && (p == remoteIp || p == AnyProxy)
  }

  /**
   * `GetIp`: the `X-Real-IP` header when it is non-empty and the peer is a
   * configured trusted proxy (or "0.0.0.0" is configured); otherwise the
   * peer's own host.
   */
  method GetIp(remoteAddr: string, realIpHeader: string, trustedProxies: Option<string>) returns (ip: string)
    ensures ip == if realIpHeader != "" && trustedProxies.Some? && trustedProxies.value != ""
                     && ProxyTrusted(HostOf(remoteAddr), trustedProxies.value)
                  then realIpHeader else HostOf(remoteAddr)
  {
    var remoteIp := HostOf(remoteAddr);
    if |realIpHeader| > 0 && trustedProxies.Some? && |trustedProxies.value| > 0 {
      var proxies := Split(trustedProxies.value, ',');
      var i := 0;
      while i < |proxies|
        invariant 0 <= i <= |proxies|
        invariant forall j :: 0 <= j < i ==> proxies[j] != remoteIp && proxies[j] != AnyProxy
      {
        if proxies[i] == remoteIp || proxies[i] == AnyProxy {
          assert proxies[i] in proxies;
          return realIpHeader;
        }
        i := i + 1;
      }
    }
    return remoteIp;
  }
}
