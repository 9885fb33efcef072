# dingding-sso core, modelled in Dafny

dingding-sso is a single-sign-on server for DingTalk QR-code login. The scan
page issues a short **ticket**: an 86-character string made of a 13-digit
millisecond timestamp, a 4-digit counter, a 64-hex-digit HMAC-SHA256 over
`"timestamp counter user-agent ip ttl-field"`, and the field `10000+ttl`. After
the user scans the QR code, DingTalk calls back with the ticket. The server
checks it in *scan* mode, where it must be at most 100 seconds old. It then
resolves the user and may ask an external **second-factor verifier**. Finally
it stores the user's profile JSON in the **session store** under the ticket
until `now+ttl`. Business applications later **fetch** the profile with the
same ticket, in *fetch* mode. A fetch may **renew** the ticket, but only from
an internal peer. Three in-memory maps expire over time:

- **Sessions:** `MemMap` holds ticket → profile and `MemMapTTL` holds ticket → expiry.
- **Trusted IPs:** `MemTrustIpMap` records successful logins by IP. A trusted IP skips the second factor.
- **Block list:** `MemForbiddenMap` is written when the verifier refuses.

Each map has a background sweeper.

The model is organised as follows:

- **Pure logic.** The ticket codec, the counter arithmetic, `isInnerIp`, `EchoJson`, the TTL clamp and config-line parsing are functions with lemmas.
- **Mutable state.** The stores, the counter and `ConfigMap` are classes with map fields. Their methods are proved against specification functions: `Sessions.FetchSpec`, `Sessions.SweepSpec`, `TrustIp.Bump`, `Login.GateSpec`, `Expiry.Prune` (the trust and block-list sweeps) and `Config.ApplyLines`.
- **Sweepers.** Each sweeper is a loop that deletes as it goes, proved equal to a one-cutoff prune.
- **Parameters.** Time, the HMAC, configuration values, request headers, DingTalk's identity answer and the verifier's answer are all parameters.

Points where the code behaves differently from what one might expect. The model follows the code in each case:

- **`isInnerIp` splits on ","** (main.go:1291), not ".". Apart from `127.0.0.1`, a dotted private address such as `10.0.0.1` or `192.168.1.1` is *not* internal (`Net.DottedPrivateAddressesNotInner`). The bare strings `172` and `192` make it index past the end of the split result, which is a panic. The model returns `None` for that case.
- **Blocks are written under the OpenId but read under other keys.** The verifier's refusal stores the block under the user's DingTalk OpenId (main.go:1346). The scan page looks up the client IP (main.go:845). The development path looks up the user name (main.go:865). The DingTalk callback does not consult the block list at all. A block therefore does not stop a scan from the same IP (`Login.BlockDoesNotGuardScanPage`).
- **A MAC mismatch still reports the TTL.** `checkTicket` returns `(false, ttl-10000)` on a MAC mismatch. Only a wrong length, the scan-age check or an unparsable TTL field give `(false, 0)`.
- **The MAC input is ambiguous.** The user agent and IP are joined with a space, so `("A B", "C")` and `("A", "B C")` sign the same message (`Ticket.FingerprintSpaceAmbiguity`).
- **The TTL query does not expire lazily.** It reports `expiry - now`, which is negative for an expired ticket that has not been swept yet. Trust is decided by presence only, so an expired but unswept entry still skips the second factor (`Login.UnsweptTrustSkipsGate`).

## Model

| member | source | states |
|---|---|---|
| Decimal.AtoiFormatInt | main.go:1113-1121 | parsing the decimal text of any int64 gives the number back (`%d` formatting and `strconv.Atoi` are inverse) |
| Decimal.Atoi | main.go:1103-1106 | `strconv.Atoi`: parsing succeeds if and only if the text is an optional '+' or '-' followed by at least one digit and nothing else, with a signed value in int64 range, and the result is that value (so "+5" and "007" parse too, and "5a", "" and out-of-range numbers are errors) |
| Decimal.PositiveAtoiFormatInt | main.go:1220-1222 | a duration setting written as the decimal text of an int64 n is in effect with value n exactly when n > 0, and switched off when n <= 0 |
| Counter.Step | main.go:1439-1448 | one call keeps the counter in 1000..9999 (what it advances to is the closed form of AfterClosedForm) |
| Counter.AfterClosedForm | main.go:1439-1448 | after k calls from v the counter is 1000 + (v - 1000 + k) mod 9000 |
| Counter.NoRepeatWithinCycle | main.go:1439-1448 | no value repeats within 9000 consecutive calls |
| Counter.WrapsOnceAfter9001Calls | main.go:1436-1448 | from the initial 1000 the first call yields 1001, call 8999 yields 9999, call 9000 yields 1000 and call 9001 yields 1001 |
| Counter.SharedCounter.constructor | main.go:1436 | the shared value starts at 1000 |
| Counter.SharedCounter.Next | main.go:1439-1448 | `GetCounterInt` advances the shared value by one step and returns the new value, which stays in range |
| Ticket.Generate | main.go:1087-1094 | a generated ticket starts with the decimal millisecond timestamp and ends with the decimal 10000+ttl |
| Ticket.Check | main.go:1096-1125 | any length other than 86, a scan-mode timestamp that does not parse or is more than 100 seconds old, or a TTL field that does not parse gives (false, 0); otherwise the result is (digest field == HMAC recomputed from the ticket's own fields and the caller's fingerprint, TTL field - 10000), so a MAC mismatch still reports the TTL |
| Ticket.MintedLayout | main.go:1087-1094 | a generated ticket with a 13-digit timestamp, a counter in range and 0 <= ttl < 90000 is 86 characters with the fields at 0..13, 13..17, 17..81 and 81..86 |
| Ticket.RoundTrip | main.go:1087-1125 | a generated ticket checked in any mode other than scan, with the same user agent, IP and secret, gives (true, ttl) |
| Ticket.SecondsPrefix | main.go:1103 | the first 10 characters of a 13-digit millisecond timestamp parse to the timestamp in seconds |
| Ticket.ScanWindow | main.go:1102-1111 | in scan mode a generated ticket gives (true, ttl) while now <= issue second + 100, and (false, 0) after that |
| Ticket.OversizedTtlRejected | main.go:1099-1101 | a ticket generated with ttl >= 90000 is longer than 86 characters and is rejected with (false, 0) in every mode |
| Ticket.DigestTamperRejected | main.go:1113-1124 | replacing the digest field of an accepted ticket with any other 64 characters makes the check fail |
| Ticket.FingerprintBinding | main.go:1091-1116 | if the HMAC is injective on messages, a generated ticket is accepted for (ua2, ip2) exactly when ua2 + " " + ip2 equals the original ua + " " + ip |
| Ticket.FingerprintSpaceAmbiguity | main.go:1091-1116 | a ticket generated for user agent "A B" and IP "C" is accepted for user agent "A" and IP "B C" |
| Ticket.Mint | main.go:1087-1094 | issuing a ticket advances the counter once and returns the generated ticket for the new counter value, which then checks back to (true, ttl) in fetch mode at any time |
| Net.HostOf | main.go:1271 | the host is the prefix of the remote address before its first ':' (the whole address when there is none) |
| Net.IsInnerIp | main.go:1287-1302 | loopback or a first comma-field "10" is internal; any internal answer needs loopback or a first comma-field of 10, 172 or 192; the panic happens only for a comma-free "172" or "192" |
| Net.IsInnerIpWithoutComma | main.go:1287-1302 | for a comma-free string, isInnerIp is true exactly for "127.0.0.1" and "10", and it panics on "172" and "192" |
| Net.IsInnerIpWithCommas | main.go:1287-1302 | for a comma-separated string, the answer is decided by its first two pieces: "10", "172" followed by 16..31, or "192" followed by "168" |
| Net.DottedPrivateAddressesNotInner | main.go:1287-1302 | 10.0.0.1, 172.16.0.1 and 192.168.1.1 are not internal; 127.0.0.1 is |
| Net.GetIp | main.go:1270-1285 | the X-Real-IP header is used exactly when it is non-empty, trusted_proxies is set and non-empty, and it lists the peer's host or 0.0.0.0; otherwise the peer's host is used |
| Text.SplitAssignSpec | main.go:1470-1474 | `SplitN(line, " = ", 2)` yields two parts exactly when the line contains " = "; the parts are the text before its first occurrence and everything after it |
| Text.SplitAssignRoundTrip | main.go:1470-1474 | a line key + " = " + value, with no '=' in key, splits back into (key, value) |
| Text.Trim | main.go:1464 | trimming leaves a contiguous slice of the input with no cut character at either end, and everything cut off before and after it is the cut character |
| Text.SplitAssign | main.go:1470 | when `SplitN(line, " = ", 2)` yields two parts, the line is the first part, " = ", then the second |
| Expiry.Prune | main.go:110-152 | a sweep pass with cutoff now keeps exactly the entries whose expiry is after now, unchanged |
| Expiry.PruneCompose | main.go:110-152 | two sweep passes equal one pass with the later cutoff, so a pass is idempotent |
| Sessions.SweepSpec | main.go:113-123 | a ticket sweep removes an expired ticket from both maps, keeps live entries unchanged, and keeps keys that have no expiry, such as "accessToken" |
| Sessions.SweepCompose | main.go:113-123 | two ticket sweeps equal one sweep with the later cutoff |
| Sessions.PutSpec | main.go:1192-1194 | storing a session sets the ticket's payload and expiry, adds only that key to each map, and leaves every other entry unchanged |
| Sessions.DeleteSpec | main.go:1074-1077 | deleting a session removes the key from both maps, keeps every other key, and leaves the kept payloads and expiries unchanged |
| Sessions.RenewGate | main.go:351-361 | renewal is granted exactly when renew is "1", allow_ticket_renew is "yes" and the peer's host is internal; the isInnerIp panic is a separate outcome |
| Sessions.FetchSpec | main.go:342-365 | a fetch returns the stored payload exactly when the ticket is in both maps, has not expired and the renewal check does not panic; the panic happens exactly for a live ticket with the panicking gate; a ticket missing from either map answers err:22 and changes nothing; an expired ticket answers err:22 and is removed from both maps; on a live ticket the payloads are unchanged and the expiries too, except that a granted renewal sets the ticket's expiry to now+ttl |
| Sessions.FetchByTicketSpec | main.go:325-365 | an empty ticket gives err:21 and changes nothing; a non-empty ticket failing checkTicket in fetch mode gives err:28 and changes nothing; a passing ticket is fetched with its own TTL and the renewal gate; so a payload is returned only for a ticket that passes the check |
| Sessions.SweepIsAdvisory | main.go:113-123 | a fetch at a later time answers the same whether or not a sweep with an earlier cutoff ran first |
| Sessions.PutThenFetch | main.go:342-365 | after a session is stored until now+ttl, a fetch returns it strictly before that second and answers err:22 from then on |
| Sessions.RenewalNeedsInternalPeer | main.go:351-361 | a fetch changes a recorded expiry only with renew=1, allow_ticket_renew=yes and an internal peer; for a comma-free host that peer is 127.0.0.1 or the bare "10" |
| Sessions.TtlSpec | main.go:278-300 | an empty ticket gives err:21; a ticket failing the fetch-mode check gives err:28; a passing ticket with a recorded expiry reports expiry - now; "ticket not found" is answered exactly for a passing ticket with no recorded expiry |
| Sessions.SessionStore.constructor | main.go:57-58 | both session maps start empty |
| Sessions.SessionStore.Put | main.go:1192-1194 | storing a session sets its payload and its expiry |
| Sessions.SessionStore.Ttl | main.go:278-300 | on the store, the TTL query reports a number exactly for a non-empty ticket that passes the check and has an expiry, and that number added to now is the recorded expiry |
| Sessions.CacheToken | main.go:454-490 | the access token stored during identity resolution replaces the "accessToken" payload, adds no expiry, and leaves every other key unchanged |
| Sessions.SessionStore.StoreAccessToken | main.go:463 | storing the access token changes the store as CacheToken |
| Sessions.AccessTokenKept | main.go:113-123 | a cached access token survives every sweep unchanged, and no fetch returns it as a payload |
| Sessions.SessionStore.FetchByTicket | main.go:325-365 | the fetch handler's reply and its new store state are those of FetchByTicketSpec |
| Sessions.SessionStore.Delete | main.go:1074-1077 | the admin delete of a session is DeleteSpec on the store |
| Sessions.SessionStore.Sweep | main.go:113-123 | the deleting loop over MemMapTTL leaves the store equal to SweepSpec at the cutoff |
| TrustIp.Bump | main.go:1220-1230 | with a positive duration d, the entry of the IP counts one more login (one for a new IP) and expires at now+d, and other entries are unchanged; otherwise the map is unchanged |
| TrustIp.TrustAccrual | main.go:1220-1230 | starting from no entry, n logins leave the count at n and the expiry at the last login time plus the duration |
| TrustIp.BumpThenSweep | main.go:130-137 | after a login at now, the IP survives a sweep exactly when the cutoff is before now plus the duration |
| TrustIp.TrustIpStore.constructor | main.go:59 | the trust map starts empty |
| TrustIp.TrustedAfterLogin | main.go:1322 | after a login, the presence test trusts the IP exactly when it was trusted before or the trust duration is in effect, and answers as before for every other IP |
| TrustIp.TrustIpStore.Increment | main.go:1220-1230 | the read-modify-write leaves the map equal to Bump |
| TrustIp.TrustIpStore.Delete | main.go:1068-1070 | the admin delete removes exactly that key |
| TrustIp.TrustIpStore.Sweep | main.go:130-137 | the deleting loop leaves the map equal to Prune at the cutoff: exactly the entries that expire after it remain, unchanged |
| Forbidden.BlockLifecycle | main.go:141-152 | a block written with expiry e survives a sweep exactly when the cutoff is before e |
| Forbidden.ForbiddenStore.constructor | main.go:60 | the block list starts empty |
| Forbidden.BlockedUntilSwept | main.go:845 | the presence test still reports a block whose expiry has passed; only a sweep at or after that second removes it |
| Forbidden.ForbiddenStore.Block | main.go:1346 | a block sets the entry of its key |
| Forbidden.ForbiddenStore.Delete | main.go:1071-1073 | the admin delete removes exactly that key |
| Forbidden.ForbiddenStore.Sweep | main.go:144-150 | the deleting loop leaves the map equal to Prune at the cutoff: exactly the entries that expire after it remain, unchanged |
| Login.ClampTtl | main.go:820-840 | the ttl query value is used exactly when it and ticket_max_ttl parse and 0 < ttl <= max; otherwise the TTL is 30 |
| Login.ClampedTtlFitsTicket | main.go:820-840 | with ticket_max_ttl below 90000, every clamped TTL is in 1..89999, the range in which tickets round-trip |
| Login.Verdict2fa | main.go:1396-1434 | the verifier counts as a success exactly when it answered "success" or "--success--"; it counts as unreachable ("--0--") exactly when no answer arrived or the answer was "--0--"; any other answer is passed through |
| Login.GateSpec | main.go:1321-1356 | the gate proceeds exactly when the IP is trusted, the feature is not "on", or a POST whose form parses gets a verifier success; otherwise it answers "exit"; only a refusal with a positive block duration writes to the block list, under the OpenId, with expiry now + duration, and no other key changes |
| Login.BlockDoesNotGuardScanPage | main.go:845 | a block written by the gate never makes the scan page reject an IP it admitted before, unless the OpenId equals that IP |
| Login.UnsweptTrustSkipsGate | main.go:1322 | an expired trust entry that has not been swept still skips the second factor, while after a sweep the gate applies |
| Login.TwoFactorCheck | main.go:1321-1356 | the gate on the stores answers and updates the block list as GateSpec |
| Login.SuccessReturn | main.go:1182-1230 | a successful login stores the session until now+ttl and bumps the trust entry of the IP |
| Login.LoginEarnsTrust | main.go:1220-1230 | after a login with a positive trust duration, the next gate for the same IP proceeds and writes no block |
| Login.IssuedTicketRedeemable | main.go:1087-1194 | a ticket issued for ttl and called back within 100 seconds passes the scan check with that ttl; once stored it is fetched strictly before ttl seconds pass and is gone from then on |
| Login.Admit | main.go:685-692 | after the checks, a login happens exactly when the user is external or the gate proceeds; it stores the session until now+ttl and bumps trust; otherwise the answer is the gate's stop and only the block list may change, and only for staff |
| Login.DevLogin | main.go:855-877 | the dev path answers the greeting to a non-local peer, err:23 for a failed scan check and err:33 for a blocked dev name, all with the stores unchanged; otherwise the gate decides, and a login stores the dev session for the ticket's TTL and bumps trust |
| Login.Resolve | main.go:463-692 | once the ticket has passed: the stored access token lands in MemMap; a failed identity resolution is refused with its own code; otherwise it logs in exactly when the user is external or passes the gate, and a staff member the gate stops gets the gate's answer with only the block list changed |
| Login.ScanSuccess | main.go:374-692 | the callback rejects with err:23 and changes nothing unless the ticket passes the scan check; after that the access token stored by identity resolution lands in MemMap whatever happens next; it logs in exactly when identity resolution succeeds and the user is external or passes the gate; a failed identity resolution is refused with its own error code and a staff member stopped by the gate gets the gate's answer; a login stores the session for the ticket's own TTL and bumps trust; only staff can be blocked |
| Login.Scan | main.go:805-962 | a blocked client IP gets err:31 and nothing changes; without `dev` a fresh ticket is always issued for the clamped TTL from the next counter value and the stores are unchanged, and it round-trips when ticket_max_ttl is below 90000; the local test page (a request from 127.0.0.1 without auto=1) reads the counter once more, so there it advances two steps, otherwise one; with `dev` the counter is untouched and the answer and store changes are those of DevLogin |
| Login.ManagerDelete | main.go:974-1077 | only a request from 127.0.0.1 with both form values present deletes anything; the map name selects the store, and a session leaves both of its maps |
| Response.EchoJson | main.go:1243-1260 | every answer is a JSON object opening with the err member and closing with a brace; an error answer's detail is a quoted string |
| Response.ErrorMessageRoundTrip | main.go:1244-1259 | an error answer's detail member reads back as the configured message of the code, or the code itself when none is configured, and the detail argument is not written |
| Response.ErrorCodeRoundTrip | main.go:1243-1260 | an error answer's err member reads back as the code whenever the code has no quote |
| Response.SuccessRoundTrip | main.go:1243-1260 | a success answer's err member is the configured text for "0", and its detail is the payload verbatim |
| Config.ConfigLines | main.go:1464 | the lines contain no newline, and joined back with newlines they give the normalised text exactly |
| Config.ApplyLines | main.go:1469-1476 | storing the lines never removes a key |
| Config.LastAssignmentWins | main.go:1469-1476 | a final line key = value leaves key set to value |
| Config.LastAssignmentAt | main.go:1469-1476 | a key ends up with the value of the last line that assigns it |
| Config.UnassignedKeyKept | main.go:1469-1476 | a key that no line assigns keeps its previous value |
| Config.CrlfReadsLikeLf | main.go:1464 | a file saved with CRLF line ends normalises to the same text as with LF line ends |
| Config.CrlfConfigLines | main.go:1464 | a file saved with CRLF line ends gives the same configuration lines as with LF line ends |
| Config.ConfigStore.constructor | main.go:1450 | the configuration starts empty |
| Config.GetAfterReload | main.go:1469-1476 | after a reload, a lookup of a key finds the value of the last line assigning it, or its previous value when no line assigns it, and nothing when no line assigns it and it had no value |
| Config.UnassignedKeyAbsent | main.go:1469-1476 | a reload adds no key that neither was configured nor is assigned by a line |
| Config.ConfigStore.Reload | main.go:1456-1476 | fewer than two lines is the read error and stores nothing; otherwise the map becomes ApplyLines of the lines |
| Config.ConfigStore.StoreLines | main.go:1469-1476 | the loop over the lines leaves the map equal to ApplyLines of the lines |

## Left out

- **HTTP plumbing:** request parsing, form-parse failures (err:20), methods other than GET and POST, status codes, redirects, the HTML and JavaScript pages, and the `EchoJs` wrapper around `EchoJson`. Form values and headers are inputs.
- **DingTalk calls and identity resolution:** `FetchDingApi`, `GetDingdingAccessToken`, `GetDingdingSignature`, `SendDingdingText` and the lookup chain of main.go:404-692 with its `goto` retries are network code. Their outcome is the input `Login.Identity`, and the access token they leave in `MemMap` is the input `tokenStored` of `Login.ScanSuccess`. The notification messages of `successReturn` are not modelled.
- **Cryptography:** HMAC-SHA256 with hex encoding (`Sha256`) is an opaque function parameter. Results about its output assume 64 lowercase hex digits (`WellFormedMac`), or injectivity where stated. `GetRandomStr` is unused.
- **The external verifier's HTTP exchange:** it is reduced to `Login.VerifierCall`, which is either no answer or a response body.
- **JSON marshalling:** the session payload is an opaque `Marshal` of the profile with the ticket. Its failure branch (err:19) cannot arise for this struct and is not modelled.
- **Concurrency:** `sync.Map`, the counter mutex and the self-rescheduling goroutines. Each sweeper is one sequential pass, and the counter is a sequential method.
- **Logging and log rotation:** not modelled.
- **Reading config.ini from disk:** the file's text is an input to `Config.ConfigStore.Reload`. The periodic re-read is not modelled.
- **Startup presence checks in `main`:** configuration keys that `main` checks at startup are plain string inputs.
- **Panics:** the "config.ini read error" panic is `ok == false`. The panic when `two_factor_authentication_block_duration` or `ticket_max_ttl` is absent from the configuration is not modelled; they are plain inputs.
- **Overflow:** `now + duration` and `now + ttl` are unbounded integers, so their int64 wrap-around is not modelled. The same goes for the `TotalLoginCount + 1` wrap-around.
- **Contact type:** `SsoContactType` is an integer, not a float64.
- **Ticket.Check:** character positions stand for bytes, so a user agent or IP with multi-byte UTF-8 characters is not modelled byte by byte.
- **demo/login.php and demo/two_factor_authentication.php:** these are an HTTP client and an external verifier, both outside the server.
