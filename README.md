# Cloudflare dynamic-DNS updater, modelled in Dafny

This project models the core of a small daemon that keeps one Cloudflare DNS
record pointed at the host's current public address (`root/app/ddns.py`). It
covers these parts:

- **Configuration** (`settings.dfy`). Each secret is read from a file or, failing
  that, from an environment variable (`load_from_file(...) or os.getenv(...)`).
  This file also has the record's fully-qualified name (`get_dns_name`) and the
  authentication headers sent with every API call (`get_headers`).
- **Address resolution** (`detection.dfy`).
  - `get_public_ip` is a chain of responsibility over 8 IPv4 or 7 IPv6
    detectors. The first detector that yields a truthy value wins. Later
    detectors are never run, and a detector's error only moves the chain on.
  - The first IPv4 detector (the Cloudflare `whoami` TXT query) also rejects
    answers longer than 15 characters.
  - `get_custom_ip` runs a configured shell command. When such a command is
    configured, `get_current_ip` uses only its output.
- **The provider** (`registrar.dfy`). Cloudflare's record API is modelled as a
  fake registrar whose state is a value:
  - the zones;
  - the records in listing order;
  - whether the credentials are accepted;
  - which operations currently fail;
  - a log of every request received.

  Every failure collapses to the `None`/`False` answer the core sees, as
  `api_call` returning `{}` does.
- **The reconciler** (`reconciler.dfy`).
  - `setup` validates the settings, verifies the token and finds the zone. It
    resolves the address, then adopts the first existing record for
    (zone, name, type) or creates one. Finally it persists exactly the zone
    id, the record id and the name.
  - `update` reads the persisted record's content, resolves the current
    address, and patches the record only when a resolved address differs from
    the stored one.

  `SetupRun` and `UpdateRun` specify both operations on values. The class
  `Host`, which holds the provider and the persisted file as fields, performs
  them step by step. Its methods are proved to agree with the specification.
- **Scenarios** (`scenarios.dfy`). End-to-end scenarios, proved as lemmas about small concrete providers.

Python's `str.strip()` is modelled with the full set of characters Python
treats as whitespace (`Strings.Whitespace`). `str.strip('"')` is modelled with
the quote character alone.

## Model

| member | source | states |
|---|---|---|
| Strings.OrEmpty | root/app/ddns.py:43 | `x or ""` on an optional string: the value when it is truthy, the empty string otherwise |
| Strings.TrimStart | root/app/ddns.py:29 | removes exactly the longest prefix made of characters in the set: the result is a suffix of the input, everything removed is in the set, and the result starts with a character outside it |
| Strings.TrimEnd | root/app/ddns.py:29 | the mirror image of `TrimStart`, at the end of the string |
| Strings.Strip | root/app/ddns.py:29 | `str.strip`: the result is no longer than the input, neither end is in the set, and it only contains characters of the input |
| Strings.StripUnpads | root/app/ddns.py:136 | padding made only of stripped characters around a value whose ends are not stripped is removed exactly, giving the value back |
| Strings.StripIdempotent | root/app/ddns.py:29 | stripping twice equals stripping once |
| Settings.LoadFromFile | root/app/ddns.py:26-30 | a value exactly when a truthy path names an existing file; the value is the file's stripped content |
| Settings.FileOrEnv | root/app/ddns.py:33-35 | the file's stripped content wins when it is non-empty; a missing path, a missing file or blank content falls back to the environment variable |
| Settings.DnsName | root/app/ddns.py:255-257 | with a truthy subdomain the name is the subdomain, a '.' and the zone (the zone a suffix, the subdomain a prefix, the dot between them); without one the name is exactly the zone |
| Settings.DnsNameRoundTrip | root/app/ddns.py:257 | splitting the composed name at the zone gives back the subdomain, an empty subdomain counting as none |
| Settings.DnsNameInjective | root/app/ddns.py:257 | within a zone, two subdomains give the same name exactly when they are equal, once normalised |
| Settings.Headers | root/app/ddns.py:39-46 | always a JSON content type, and exactly one authentication scheme. With a truthy email the keys are Content-Type, X-Auth-Email and X-Auth-Key, the key being the API key or "". Otherwise they are Content-Type and `Authorization: Bearer <key or "">` |
| Detection.ChainFor | root/app/ddns.py:125-225 | a record type has a detector chain exactly when it is A or AAAA |
| Detection.Candidate | root/app/ddns.py:136-198 | a detector yields only non-empty addresses, and the capped TXT rule never yields more than its cap |
| Detection.CandidateRules | root/app/ddns.py:136-198 | each rule exactly: the TXT rule yields the answer stripped of whitespace then quotes iff that is non-empty and within the cap (when there is one); the plain DNS rule yields the stripped answer iff it is non-empty; an HTTP detector yields its extracted value iff it is non-empty |
| Detection.Accepted | root/app/ddns.py:168-176 | a detector that raised yields nothing; one that returned yields what its rule makes of the answer (`Candidate`); what it yields is never empty |
| Detection.FirstSome | root/app/ddns.py:166-178 | over what each detector would yield, in order: a present value is the one at the last position taken and every earlier one is absent; nothing is found exactly when every value is absent, and then all were taken |
| Detection.Yields | root/app/ddns.py:168-176 | one entry per detector, each what that detector yields for its outcome |
| Detection.FirstSuccess | root/app/ddns.py:125-225 | when the chain yields an address, it is the one from the last detector run and every earlier detector yielded nothing. It yields nothing exactly when every detector yields nothing, and then all of them were run |
| Detection.SucceedsAt | root/app/ddns.py:166-174 | when detectors 0..k-1 fail and detector k yields v, the result is v after exactly k+1 detectors |
| Detection.UntriedIrrelevant | root/app/ddns.py:166-174 | outcomes of detectors after the winner do not affect the result, because they are never run |
| Detection.PassesOn | root/app/ddns.py:140-143 | a first detector that yields nothing hands the decision, shifted by one, to the rest of the chain |
| Detection.LongTxtAnswerFallsThrough | root/app/ddns.py:136-137 | an IPv4 TXT answer longer than 15 characters after stripping is rejected, and the chain continues with OpenDNS |
| Detection.ShortQuotedAnswerLeads | root/app/ddns.py:136-139 | a chain opening with the 15-character TXT detector stops there when its stripped answer is non-empty and within the cap |
| Detection.ShortTxtAnswerWins | root/app/ddns.py:136-139 | a non-empty IPv4 TXT answer of at most 15 characters is the result, after a single detector |
| Detection.QuotedAnswerLeads | root/app/ddns.py:197-200 | a chain opening with an uncapped TXT detector stops there whenever its stripped answer is non-empty |
| Detection.V6TxtAnswerWins | root/app/ddns.py:197-200 | any non-empty stripped IPv6 TXT answer, however long, is the result after a single detector |
| Detection.PlainAnswerLeads | root/app/ddns.py:151-154 | a chain opening with the plain DNS detector stops there whenever its stripped answer is not blank |
| Detection.OpenDnsAnswerWins | root/app/ddns.py:142-154 | when the TXT detector yields nothing, any non-blank OpenDNS answer, stripped but not filtered, is the result after two detectors |
| Detection.PublicIp | root/app/ddns.py:125-225 | `get_public_ip` for a record type runs that type's chain and gives the same answer and detector count as `FirstSuccess` |
| Detection.RunChain | root/app/ddns.py:166-178 | the loop over the detectors returns at the first one that yields an address, in agreement with `FirstSuccess` |
| Detection.CustomIp | root/app/ddns.py:228-242 | an address exactly when the command returned output that is not blank once stripped; the address is that stripped output |
| Detection.CurrentIp | root/app/ddns.py:245-252 | the command runs exactly when it is configured (truthy), and its result is then `CustomIp` with no detector run; otherwise the result is the public chain's. A resolved address is never empty |
| Detection.CustomCommandAuthoritative | root/app/ddns.py:246-247 | with a custom command configured, the public detectors' outcomes do not affect the result |
| Detection.UnknownTypeResolvesNothing | root/app/ddns.py:245-252 | without a command, a type other than A or AAAA resolves to nothing and runs no detector |
| Registrar.FirstMatch | root/app/ddns.py:86 | the index of the first record matching the query (`records[0]` of the listing), or the length of the list when none matches |
| Registrar.Count | root/app/ddns.py:85 | the number of records matching a query is at most the number of records, and it is zero exactly when no record matches |
| Registrar.CountZero | root/app/ddns.py:85-86 | no record matches exactly when `FirstMatch` finds none |
| Registrar.CountAppend | root/app/ddns.py:89-101 | appending a record adds one to a query's count exactly when it matches |
| Registrar.AppendedIsFirstMatch | root/app/ddns.py:82-101 | when no record matched, a matching record appended by a create is the first match a later lookup returns |
| Registrar.LongestId | root/app/ddns.py:101 | bounds the length of every record id |
| Registrar.FreshId | root/app/ddns.py:101 | the id the fake provider gives a new record differs from every existing id |
| Registrar.VerifyToken | root/app/ddns.py:69-72 | true exactly when the credentials are accepted and the request succeeds; the request is logged and nothing else changes |
| Registrar.GetZoneId | root/app/ddns.py:75-79 | the zone's id exactly when the zone exists and the request succeeds, otherwise `None` |
| Registrar.GetRecordId | root/app/ddns.py:82-86 | `None` when the request fails. Otherwise `None` exactly when no record matches the name and type in the zone, and the first match's id when one does |
| Registrar.CreateRecord | root/app/ddns.py:89-101 | on failure only the log changes. On success the new record is appended with the given fields under an id no record had, and that id is returned. Unique ids are preserved |
| Registrar.UpdateRecord | root/app/ddns.py:104-110 | true exactly when the request succeeds and the record exists. The record then takes the new fields; otherwise the records are unchanged. The request is logged and unique ids are preserved |
| Registrar.Patched | root/app/ddns.py:107-109 | a PATCH keeps every record's id and zone, changes no record other than the targeted one, and gives the targeted one the new name, type, content and proxy flag |
| Registrar.GetRecordContent | root/app/ddns.py:119-122 | the content of the first record with that id in the zone exactly when one exists and the request succeeds, otherwise `None` |
| Registrar.ReadAfterPatch | root/app/ddns.py:104-122 | reading a record right after a successful PATCH gives back the new content |
| Reconciler.Resolve | root/app/ddns.py:245-252 | the address the reconciler uses is never the empty string |
| Reconciler.FindOrCreate | root/app/ddns.py:281-289 | adopts the first matching record when the lookup answers. It creates a record only when the lookup fails or nothing matches, appending exactly one record with the resolved address. It never creates when the lookup works and a record matches |
| Reconciler.SetupOutcomes | root/app/ddns.py:260-300 | each exit of `setup` happens exactly when its check is the first to fail: invalid credentials, zone not found, no address, record creation failed; setup succeeds exactly when every check passes and the lookup finds a record or the creation works |
| Reconciler.SetupExitStatus | root/app/ddns.py:260-289 | the exit status is 0 exactly when every check of `setup` passes, and 1 otherwise |
| Reconciler.SetupRun | root/app/ddns.py:260-300 | missing API key or zone exits with the site untouched, and that is the only case where that happens. Every exit leaves the persisted file and the records unchanged. Success persists exactly (zone id, record id, dns name) of the configured zone, with a non-empty record id. The record is either the first existing match or a single new record holding the resolved address. Only records and log change, and unique ids are preserved |
| Reconciler.UpdateRun | root/app/ddns.py:303-329 | never changes the persisted file; with no file it makes no request and changes nothing; the records change only on a successful patch, and then they are the stored record patched with the resolved address, type and proxy flag; only records and log change; unique ids are preserved |
| Reconciler.UpdateOutcomes | root/app/ddns.py:303-329 | no file gives no-config; otherwise unresolved exactly when no address resolves, in sync exactly when it equals the stored content, updated exactly when it differs and the PATCH succeeds, failed exactly when it differs and the PATCH fails |
| Reconciler.Writes | root/app/ddns.py:284-286 | the number of write requests (create, patch) in a log never exceeds its length, and it is zero exactly when the log holds no write |
| Reconciler.WritesAppend | root/app/ddns.py:322-324 | counting writes distributes over concatenating logs |
| Reconciler.SetupNeverDuplicates | root/app/ddns.py:281-289 | with a working lookup, setup leaves the number of records for (zone, name, type) unchanged or takes it from 0 to 1 |
| Reconciler.SetupTwiceKeepsOneRecord | root/app/ddns.py:281-289 | two setups in a row keep at most one record for (zone, name, type) when there was at most one before |
| Reconciler.SetupIdempotent | root/app/ddns.py:281-297 | after a successful setup, a second one writes no record and, if it succeeds, persists the same zone, record and name |
| Reconciler.FailedLookupDuplicates | root/app/ddns.py:281-289 | when the lookup request fails while a record exists, setup still creates one, so a second record with the same name and type appears |
| Reconciler.UpdateWritesOnMismatch | root/app/ddns.py:315-329 | update's exact requests are a read, then a PATCH exactly when an address was resolved and differs from the stored content (also when the read answered nothing); it writes once in that case and never otherwise |
| Reconciler.UpdateConverges | root/app/ddns.py:315-329 | after an update that patched the record, another update with the same address finds it in sync and changes no record |
| Reconciler.Host.constructor | root/app/ddns.py:304-309 | a host starts with the given provider and persisted file |
| Reconciler.Host.Setup | root/app/ddns.py:260-300 | the step-by-step `setup`, returning at each fatal condition, leaves exactly the state and outcome `SetupRun` specifies |
| Reconciler.Host.Update | root/app/ddns.py:303-329 | the step-by-step `update` leaves exactly the state and outcome `UpdateRun` specifies |
| Scenarios.LineStrips | root/app/ddns.py:29 | a line of output ending in a newline strips to its text when the text neither starts nor ends with whitespace |
| Scenarios.QuotesStrip | root/app/ddns.py:136 | quotes around an address are stripped off |
| Scenarios.TxtAnswerStrips | root/app/ddns.py:136 | `"<ip>"` followed by a newline, as `dig` prints a TXT answer, strips to `<ip>` |
| Scenarios.CommandOutputStrips | root/app/ddns.py:234-237 | a command printing an address and a newline yields that address |
| Scenarios.TxtProbes | root/app/ddns.py:130-141 | a probe list for the IPv4 chain whose first detector answers with a quoted address |
| Scenarios.TxtAnswerResolves | root/app/ddns.py:136-139 | without a command, a short quoted TXT answer is the resolved address |
| Scenarios.HomeName | root/app/ddns.py:257 | subdomain `home` in zone `example.com` names `home.example.com` |
| Scenarios.FirstSetupCreatesRecord | root/app/ddns.py:260-300 | on a provider with no record, setup creates exactly one record holding the resolved address and persists its zone id, id and `home.example.com` |
| Scenarios.CommandResolves | root/app/ddns.py:245-247 | a configured command printing an address and a newline resolves to that address |
| Scenarios.ManagedReads | root/app/ddns.py:119-122 | reading the managed record gives its content |
| Scenarios.ManagedPatches | root/app/ddns.py:104-110 | patching the managed record replaces its content and nothing else |
| Scenarios.PatchLogged | root/app/ddns.py:315-324 | when the resolved address differs from the stored content, update's requests are a read and then a PATCH carrying the new address |
| Scenarios.UpdatePatchesChangedAddress | root/app/ddns.py:315-325 | a changed address gives a read followed by one PATCH, and the record ends up holding the new address |
| Scenarios.UpdateLeavesMatchingRecord | root/app/ddns.py:322-329 | an unchanged address gives a single read and leaves the records as they were |
| Scenarios.V4Probes | root/app/ddns.py:158-165 | one outcome for each of the eight IPv4 detectors |

## Left out

- The HTTP transport (`api_call`, lines 49-66) is not modelled. Its effect is
  kept: any failure is `None` or `False`. The fake provider's `failing` set
  stands in for timeouts, error statuses and missing result fields.
- Running `dig`, the shell (`subprocess.run`) and the HTTP detectors is not
  modelled. What each returned is an input (`Attempt`), and an extractor that
  found no field is modelled as the empty answer. The content of JSON fields
  is not modelled: `httpbin.org/ip`'s `origin` may hold several addresses, and
  the model takes whatever text the extractor returned.
- Logging, `argparse`, `main` and the scheduler loop of `run()` are not
  modelled. Reading the environment at import time is not modelled either:
  the settings the core decides on (API key, zone, subdomain, email, RRTYPE,
  PROXIED, the custom lookup command) are fields of `Settings.Config`.
- CF_API and DNS_SERVER are not modelled. They only parameterise the HTTP
  transport and the `dig` call, which are outside the model.
- `delete_dns_record` (lines 113-116) is not modelled, because nothing in the
  core calls it.
- Errors writing or parsing `/config/cloudflare.conf`, and a file without the
  three keys, are not modelled. The persisted file is either absent or holds
  exactly a `ManagedRecord`.
- `get_zone_id` is modelled as a lookup in the zone map: the provider lists
  at most one zone per name.
- `verify_token`'s URL choice (user endpoint with an email, token endpoint
  without one) is not modelled. The fake accepts or rejects the credentials
  as a whole.
- Record ids for new records come from the fake provider (`FreshId`), not
  from Cloudflare.
- Reconciler.SetupRun, Reconciler.UpdateRun, Reconciler.Host.Setup,
  Reconciler.Host.Update: these require one detector outcome per detector of
  the configured chain (`WellFormed`). This is a condition on the modelled
  environment, not on the program's inputs.
- Settings.FileOrEnv: when a secret file exists but is blank after stripping,
  the environment variable is used. This follows the code (`"" or env`),
  where a prose reading of "file wins" would not.
