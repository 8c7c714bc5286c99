/** End-to-end runs of `setup` and `update` on a small fake provider, with the
    addresses of the documentation ranges. */
module Scenarios {
  import opened Strings
  import opened Settings
  import opened Detection
  import opened Registrar
  import opened Reconciler

  /** A configuration for `home.example.com`, type A, token authentication,
      with or without a custom lookup command. */
  function HomeConfig(command: Option<string>): Config {
    Config(Some("token"), Some("example.com"), Some("home"), None, "A", false, command)
  }

  /** A line of output, ending in a newline, strips to its text when the
      text neither starts nor ends with whitespace. */
  lemma LineStrips(m: string)
    requires m != [] && m[0] !in Whitespace && m[|m| - 1] !in Whitespace
    ensures Strip(m + "\n", Whitespace) == m
  {
    assert '\n' in Whitespace;
    assert m + "\n" == [] + m + "\n";
    StripUnpads([], m, "\n", Whitespace);
  }

  /** Quotes around an address are stripped off. */
  lemma QuotesStrip(ip: string)
    requires Dotted(ip)
    ensures Strip("\"" + ip + "\"", Quote) == ip
  {
    assert ip[0] !in Quote && ip[|ip| - 1] !in Quote;
    StripUnpads("\"", ip, "\"", Quote);
  }

  /** `dig +short ... TXT` prints the address in quotes, then a newline. */
  lemma TxtAnswerStrips(ip: string)
    requires Dotted(ip)
    ensures Strip(Strip("\"" + ip + "\"\n", Whitespace), Quote) == ip
  {
    var quoted := "\"" + ip + "\"";
    assert quoted[0] == '"' && quoted[|quoted| - 1] == '"' && '"' !in Whitespace;
    assert "\"" + ip + "\"\n" == quoted + "\n";
    LineStrips(quoted);
    QuotesStrip(ip);
  }

  /** A shell command prints the address and a newline. */
  lemma CommandOutputStrips(ip: string)
    requires Dotted(ip)
    ensures CustomIp(Returned(ip + "\n")) == Some(ip)
  {
    LineStrips(ip);
  }

  /** An address as a detector prints it: non-empty, starting and ending
      with a digit. */
  predicate Dotted(ip: string) {
    ip != [] && ip[0] in "0123456789" && ip[|ip| - 1] in "0123456789"
  }

  /** The Cloudflare TXT lookup answers `ip`; every HTTP detector fails. */
  function TxtProbes(ip: string): (probes: seq<Attempt>)
    ensures |probes| == |V4Chain|
    ensures probes[0] == Returned("\"" + ip + "\"\n")
  {
    [Returned("\"" + ip + "\"\n")] + seq(7, _ => Raised)
  }

  /** Without a custom command, a short TXT answer is the address. */
  lemma TxtAnswerResolves(ip: string)
    requires Dotted(ip) && |ip| <= 15
    ensures Resolve(HomeConfig(None), Lookup(Raised, TxtProbes(ip))) == Some(ip)
  {
    assert FirstSuccess(V4Chain, TxtProbes(ip)).ip == Some(ip) by {
      TxtAnswerStrips(ip);
      ShortTxtAnswerWins("\"" + ip + "\"\n", seq(7, _ => Raised));
    }
  }

  lemma HomeName()
    ensures DnsName("example.com", Some("home")) == "home.example.com"
  {
  }

  /** No record yet and the Cloudflare TXT lookup answers `ip`: setup creates
      `home.example.com` with that address and persists the zone id, the new
      record's id and the name. */
  lemma FirstSetupCreatesRecord(ip: string)
    requires Dotted(ip) && |ip| <= 15
    ensures
      var p := Provider(true, map["example.com" := "zone-1"], [], {}, []);
      var r := SetupRun(Site(p, None), HomeConfig(None), Lookup(Raised, TxtProbes(ip)));
      && r.outcome.Configured?
      && r.outcome.saved.zoneId == "zone-1"
      && r.outcome.saved.name == "home.example.com"
      && r.site.config == Some(r.outcome.saved)
      && r.site.provider.records
         == [Record(r.outcome.saved.recordId, "zone-1", "home.example.com", "A", ip, false)]
  {
    var p := Provider(true, map["example.com" := "zone-1"], [], {}, []);
    var s := Site(p, None);
    var cfg := HomeConfig(None);
    var env := Lookup(Raised, TxtProbes(ip));
    TxtAnswerResolves(ip);
    HomeName();
    assert ZoneAnswers(p, "example.com");
    SetupOutcomes(s, cfg, env);
    var r := SetupRun(s, cfg, env);
    assert r.site.provider.records != p.records;
  }

  /** The provider's record for the managed name and the persisted file
      naming it. */
  function Managed(content: string): Site {
    Site(
      Provider(true, map["example.com" := "zone-1"],
               [Record("rec-1", "zone-1", "home.example.com", "A", content, false)], {}, []),
      Some(ManagedRecord("zone-1", "rec-1", "home.example.com")))
  }

  /** The configured command prints `ip` and a newline: that is the address. */
  lemma CommandResolves(ip: string)
    requires Dotted(ip)
    ensures Resolve(HomeConfig(Some("get-ip")), Lookup(Returned(ip + "\n"), V4Probes())) == Some(ip)
  {
    CommandOutputStrips(ip);
  }

  /** Reading the managed record gives its content. */
  lemma ManagedReads(content: string)
    ensures Count(Managed(content).provider.records, ById("zone-1", "rec-1")) > 0
    ensures GetRecordContent(Managed(content).provider, "zone-1", "rec-1").answer == Some(content)
  {
    assert Matches(Managed(content).provider.records[0], ById("zone-1", "rec-1"));
  }

  /** Patching the managed record replaces its content and nothing else. */
  lemma ManagedPatches(stored: string, current: string)
    ensures Patched(Managed(stored).provider.records, "zone-1", "rec-1", "home.example.com", current, "A", false)
            == [Record("rec-1", "zone-1", "home.example.com", "A", current, false)]
  {
    var rs := Managed(stored).provider.records;
    assert FirstMatch(rs, ById("zone-1", "rec-1")) == 0;
  }

  /** When the address differs from the stored content, `update` logs a read
      and then a PATCH carrying the new address. */
  lemma PatchLogged(s: Site, cfg: Config, env: Lookup, ip: string, stored: string)
    requires WellFormed(cfg, env) && s.config.Some?
    requires Resolve(cfg, env) == Some(ip) && ip != stored
    requires GetRecordContent(s.provider, s.config.value.zoneId, s.config.value.recordId).answer == Some(stored)
    ensures var m := s.config.value;
            UpdateRun(s, cfg, env).site.provider.log
            == s.provider.log + [ReadCall(m.zoneId, m.recordId), PatchCall(m.zoneId, m.recordId, m.name, ip, cfg.rrtype, cfg.proxied)]
  {
    var m := s.config.value;
    UpdateWritesOnMismatch(s, cfg, env);
    assert s.provider.log + [ReadCall(m.zoneId, m.recordId)] + [PatchCall(m.zoneId, m.recordId, m.name, ip, cfg.rrtype, cfg.proxied)]
        == s.provider.log + [ReadCall(m.zoneId, m.recordId), PatchCall(m.zoneId, m.recordId, m.name, ip, cfg.rrtype, cfg.proxied)];
  }

  /** The record holds `stored` and the command now prints another address:
      update reads the record, then patches it to the new address. */
  lemma UpdatePatchesChangedAddress(stored: string, current: string)
    requires Dotted(current) && current != stored
    ensures
      var r := UpdateRun(Managed(stored), HomeConfig(Some("get-ip")), Lookup(Returned(current + "\n"), V4Probes()));
      && r.outcome == Updated
      && r.site.provider.records == [Record("rec-1", "zone-1", "home.example.com", "A", current, false)]
      && r.site.provider.log == [ReadCall("zone-1", "rec-1"),
                                 PatchCall("zone-1", "rec-1", "home.example.com", current, "A", false)]
  {
    var s := Managed(stored);
    var cfg := HomeConfig(Some("get-ip"));
    var env := Lookup(Returned(current + "\n"), V4Probes());
    CommandResolves(current);
    ManagedReads(stored);
    UpdateOutcomes(s, cfg, env);
    ManagedPatches(stored, current);
    PatchLogged(s, cfg, env, current, stored);
    assert s.provider.log == [];
  }

  /** The record already holds the address the command prints: update only
      reads, and writes nothing. */
  lemma UpdateLeavesMatchingRecord(ip: string)
    requires Dotted(ip)
    ensures
      var r := UpdateRun(Managed(ip), HomeConfig(Some("get-ip")), Lookup(Returned(ip + "\n"), V4Probes()));
      && r.outcome == InSync
      && r.site.provider.records == Managed(ip).provider.records
      && r.site.provider.log == [ReadCall("zone-1", "rec-1")]
  {
    var s := Managed(ip);
    var cfg := HomeConfig(Some("get-ip"));
    var env := Lookup(Returned(ip + "\n"), V4Probes());
    CommandResolves(ip);
    ManagedReads(ip);
    UpdateOutcomes(s, cfg, env);
    UpdateWritesOnMismatch(s, cfg, env);
    assert [] + [ReadCall("zone-1", "rec-1")] == [ReadCall("zone-1", "rec-1")];
  }

  /** Outcomes for the eight IPv4 detectors; never consulted while a custom
      command is configured. */
  function V4Probes(): (probes: seq<Attempt>)
    ensures |probes| == |V4Chain|
  {
    seq(8, _ => Raised)
  }
}
