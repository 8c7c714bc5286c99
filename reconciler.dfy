/** The reconciler: `setup` creates or adopts the one record this installation
    manages and persists which record that is; `update` compares the record's
    stored address with the current one and patches it only on mismatch.
    `SetupRun` and `UpdateRun` specify the two operations on values; the class
    `Host` performs them step by step on the provider and the persisted file. */
module Reconciler {
  import opened Strings
  import opened Settings
  import opened Detection
  import opened Registrar

  /** The content of `/config/cloudflare.conf`: CF_ZONE_ID, CF_RECORD_ID and
      CF_RECORD_NAME. */
  datatype ManagedRecord = ManagedRecord(zoneId: string, recordId: string, name: string)

  /** The conditions under which `setup` exits the process with status 1. */
  datatype FatalError = MissingSettings | InvalidCredentials | ZoneNotFound | NoAddress | CreateFailed

  datatype SetupOutcome = Configured(saved: ManagedRecord) | Exit(reason: FatalError)

  /** The process exit status `setup` leaves behind: `sys.exit(1)` on every
      fatal condition, 0 when it returns normally. */
  function ExitStatus(o: SetupOutcome): int {
    if o.Exit? then 1 else 0
  }

  /** How an `update` cycle ended; none of these stops the process. */
  datatype UpdateOutcome = NoConfig | Unresolved | InSync | Updated | UpdateFailed

  /** What the reconciler acts on: the provider and the persisted file
      (`None` when the file does not exist). */
  datatype Site = Site(provider: Provider, config: Option<ManagedRecord>)

  datatype SetupResult = SetupResult(site: Site, outcome: SetupOutcome)

  datatype UpdateResult = UpdateResult(site: Site, outcome: UpdateOutcome)

  /** The environment gives one outcome per detector of the configured chain. */
  predicate WellFormed(cfg: Config, env: Lookup) {
    |env.probes| == |ChainFor(cfg.rrtype)|
  }

  /** The address the reconciler resolves for this configuration. */
  function Resolve(cfg: Config, env: Lookup): (ip: Option<string>)
    requires WellFormed(cfg, env)
    ensures ip.Some? ==> ip.value != []
  {
    CurrentIp(cfg.customCommand, cfg.rrtype, env).ip
  }

  /** The create-or-adopt step of `setup`: the id of the first record listed
      under (zone, name, type) if the lookup returns one; otherwise the id of
      a record created with the resolved address, or `None` if creating it
      fails. A record is created only when the lookup returned nothing, which
      is when none matches or the lookup failed. */
  function FindOrCreate(p: Provider, zoneId: string, name: string, content: string, rrtype: string, proxied: bool)
    : (r: Reply<Option<string>>)
    ensures r.answer.Some? ==> r.answer.value != []
    ensures r.after.(records := p.records, log := p.log) == p
    ensures r.after.records == p.records ==>
      r.answer.Some? ==>
        var k := FirstMatch(p.records, ByName(zoneId, name, rrtype));
        k < |p.records| && p.records[k].id == r.answer.value
    ensures r.after.records != p.records ==>
      && (LookupOp in p.failing || Count(p.records, ByName(zoneId, name, rrtype)) == 0)
      && r.answer.Some?
      && r.after.records == p.records + [Record(r.answer.value, zoneId, name, rrtype, content, proxied)]
    ensures LookupOp !in p.failing && Count(p.records, ByName(zoneId, name, rrtype)) > 0 ==>
      r.after.records == p.records && r.answer.Some?
  {
    var found := GetRecordId(p, zoneId, name, rrtype);
    if Truthy(found.answer) then found
    else CreateRecord(found.after, zoneId, name, content, rrtype, proxied)
  }

  /** `setup`, on values. A fatal exit never touches the persisted file and
      never leaves a new record behind; success persists exactly the zone id,
      the record id and the fully-qualified name. */
  function SetupRun(s: Site, cfg: Config, env: Lookup): (r: SetupResult)
    requires WellFormed(cfg, env)
    ensures r.outcome.Exit? ==> r.site.config == s.config && r.site.provider.records == s.provider.records
    ensures r.outcome == Exit(MissingSettings) <==> !Truthy(cfg.apiKey) || !Truthy(cfg.zone)
    ensures r.outcome == Exit(MissingSettings) ==> r.site == s
    ensures r.outcome.Configured? ==> r.site.config == Some(r.outcome.saved)
    ensures r.outcome.Configured? ==>
      && Truthy(cfg.zone)
      && cfg.zone.value in s.provider.zones
      && r.outcome.saved.zoneId == s.provider.zones[cfg.zone.value]
      && r.outcome.saved.name == DnsName(cfg.zone.value, cfg.subdomain)
      && r.outcome.saved.recordId != []
    ensures r.site.provider.(records := s.provider.records, log := s.provider.log)
            == s.provider
    ensures r.outcome.Configured? && r.site.provider.records == s.provider.records ==>
      var m := r.outcome.saved;
      var k := FirstMatch(s.provider.records, ByName(m.zoneId, m.name, cfg.rrtype));
      k < |s.provider.records| && s.provider.records[k].id == m.recordId
    ensures r.site.provider.records != s.provider.records ==>
      && r.outcome.Configured?
      && Resolve(cfg, env).Some?
      && var m := r.outcome.saved;
      && (LookupOp in s.provider.failing || Count(s.provider.records, ByName(m.zoneId, m.name, cfg.rrtype)) == 0)
      && r.site.provider.records
         == s.provider.records + [Record(m.recordId, m.zoneId, m.name, cfg.rrtype, Resolve(cfg, env).value, cfg.proxied)]
    ensures r.outcome.Configured? && LookupOp !in s.provider.failing ==>
      var m := r.outcome.saved;
      Count(s.provider.records, ByName(m.zoneId, m.name, cfg.rrtype)) > 0 ==> r.site.provider.records == s.provider.records
    ensures Valid(s.provider) ==> Valid(r.site.provider)
  {
    if !Truthy(cfg.apiKey) || !Truthy(cfg.zone) then SetupResult(s, Exit(MissingSettings))
    else
      var zone := cfg.zone.value;
      var verified := VerifyToken(s.provider);
      if !verified.answer then SetupResult(s.(provider := verified.after), Exit(InvalidCredentials))
      else
        var zoneId := GetZoneId(verified.after, zone);
        if !Truthy(zoneId.answer) then SetupResult(s.(provider := zoneId.after), Exit(ZoneNotFound))
        else
          var ip := Resolve(cfg, env);
          if !Truthy(ip) then SetupResult(s.(provider := zoneId.after), Exit(NoAddress))
          else
            var name := DnsName(zone, cfg.subdomain);
            var record := FindOrCreate(zoneId.after, zoneId.answer.value, name, ip.value, cfg.rrtype, cfg.proxied);
            if !Truthy(record.answer) then SetupResult(s.(provider := record.after), Exit(CreateFailed))
            else
              var saved := ManagedRecord(zoneId.answer.value, record.answer.value, name);
              SetupResult(Site(record.after, Some(saved)), Configured(saved))
  }

  /** `update`, on values. It never changes the persisted file; without one it
      makes no request at all. */
  function UpdateRun(s: Site, cfg: Config, env: Lookup): (r: UpdateResult)
    requires WellFormed(cfg, env)
    ensures r.site.config == s.config
    ensures s.config.None? ==> r == UpdateResult(s, NoConfig)
    ensures r.outcome != Updated ==> r.site.provider.records == s.provider.records
    ensures r.outcome == Updated ==>
      && s.config.Some?
      && Resolve(cfg, env).Some?
      && var m := s.config.value;
      && r.site.provider.records
         == Patched(s.provider.records, m.zoneId, m.recordId, m.name, Resolve(cfg, env).value, cfg.rrtype, cfg.proxied)
    ensures r.site.provider.(records := s.provider.records, log := s.provider.log)
            == s.provider
    ensures Valid(s.provider) ==> Valid(r.site.provider)
  {
    match s.config
    case None => UpdateResult(s, NoConfig)
    case Some(m) =>
      var stored := GetRecordContent(s.provider, m.zoneId, m.recordId);
      var ip := Resolve(cfg, env);
      if !Truthy(ip) then UpdateResult(s.(provider := stored.after), Unresolved)
      else if ip != stored.answer then
        var patch := UpdateRecord(stored.after, m.zoneId, m.recordId, m.name, ip.value, cfg.rrtype, cfg.proxied);
        UpdateResult(s.(provider := patch.after), if patch.answer then Updated else UpdateFailed)
      else UpdateResult(s.(provider := stored.after), InSync)
  }

  /** The zone lookup answers with a usable (non-empty) zone id. */
  predicate ZoneAnswers(p: Provider, zone: string) {
    zone in p.zones && ZoneOp !in p.failing && p.zones[zone] != []
  }

  /** The record lookup of `setup` returns an id: it answers and some record
      has the name and type in the zone. */
  predicate RecordFound(p: Provider, zoneId: string, name: string, rrtype: string) {
    LookupOp !in p.failing && Count(p.records, ByName(zoneId, name, rrtype)) > 0
  }

  /** Each fatal exit of `setup` happens exactly when its check is the first
      to fail, in the order of the source: settings, credentials, zone,
      address, then creating the record when the lookup found none. Setup
      succeeds exactly when every check passes. */
  lemma SetupOutcomes(s: Site, cfg: Config, env: Lookup)
    requires WellFormed(cfg, env)
    ensures var r := SetupRun(s, cfg, env);
            var p := s.provider;
            var settings := Truthy(cfg.apiKey) && Truthy(cfg.zone);
            var token := p.tokenValid && VerifyOp !in p.failing;
            var zone := settings && ZoneAnswers(p, cfg.zone.value);
            var ip := Resolve(cfg, env).Some?;
            var found := zone && RecordFound(p, p.zones[cfg.zone.value], DnsName(cfg.zone.value, cfg.subdomain), cfg.rrtype);
            && (r.outcome == Exit(InvalidCredentials) <==> settings && !token)
            && (r.outcome == Exit(ZoneNotFound) <==> settings && token && !zone)
            && (r.outcome == Exit(NoAddress) <==> settings && token && zone && !ip)
            && (r.outcome == Exit(CreateFailed) <==> settings && token && zone && ip && !found && CreateOp in p.failing)
            && (r.outcome.Configured? <==> settings && token && zone && ip && (found || CreateOp !in p.failing))
  {
    if Truthy(cfg.apiKey) && Truthy(cfg.zone) && s.provider.tokenValid && VerifyOp !in s.provider.failing
       && ZoneAnswers(s.provider, cfg.zone.value) && Resolve(cfg, env).Some? {
      var p := s.provider;
      var zoneId := p.zones[cfg.zone.value];
      var name := DnsName(cfg.zone.value, cfg.subdomain);
      var after := GetZoneId(VerifyToken(p).after, cfg.zone.value).after;
      assert after.records == p.records && after.failing == p.failing;
      var record := FindOrCreate(after, zoneId, name, Resolve(cfg, env).value, cfg.rrtype, cfg.proxied);
      assert record.answer.Some? <==> RecordFound(p, zoneId, name, cfg.rrtype) || CreateOp !in p.failing;
    }
  }

  /** `setup` exits with status 1 exactly when one of its checks fails, and
      with status 0 exactly when the record is configured. */
  lemma SetupExitStatus(s: Site, cfg: Config, env: Lookup)
    requires WellFormed(cfg, env)
    ensures var p := s.provider;
            var ok := && Truthy(cfg.apiKey) && Truthy(cfg.zone)
                      && p.tokenValid && VerifyOp !in p.failing
                      && ZoneAnswers(p, cfg.zone.value)
                      && Resolve(cfg, env).Some?
                      && (RecordFound(p, p.zones[cfg.zone.value], DnsName(cfg.zone.value, cfg.subdomain), cfg.rrtype)
                          || CreateOp !in p.failing);
            ExitStatus(SetupRun(s, cfg, env).outcome) == if ok then 0 else 1
  {
    SetupOutcomes(s, cfg, env);
  }

  /** How an update cycle ends: nothing to do without the persisted file;
      unresolved without an address; in sync when the address equals what the
      provider answered for the record; otherwise a PATCH, which succeeds
      exactly when it is accepted and the record exists. */
  lemma UpdateOutcomes(s: Site, cfg: Config, env: Lookup)
    requires WellFormed(cfg, env)
    ensures var r := UpdateRun(s, cfg, env);
            var ip := Resolve(cfg, env);
            && (r.outcome == NoConfig <==> s.config.None?)
            && (s.config.Some? ==>
                  var m := s.config.value;
                  var stored := GetRecordContent(s.provider, m.zoneId, m.recordId).answer;
                  var patchable := PatchOp !in s.provider.failing && Count(s.provider.records, ById(m.zoneId, m.recordId)) > 0;
                  && (r.outcome == Unresolved <==> ip.None?)
                  && (r.outcome == InSync <==> ip.Some? && ip == stored)
                  && (r.outcome == Updated <==> ip.Some? && ip != stored && patchable)
                  && (r.outcome == UpdateFailed <==> ip.Some? && ip != stored && !patchable))
  {
    if s.config.Some? {
      var m := s.config.value;
      var stored := GetRecordContent(s.provider, m.zoneId, m.recordId);
      assert stored.after.records == s.provider.records && stored.after.failing == s.provider.failing;
    }
  }

  /** The number of write requests (POST and PATCH) in a call log. */
  function Writes(log: seq<Call>): (n: nat)
    ensures n <= |log|
    ensures n == 0 <==> forall i :: 0 <= i < |log| ==> !IsWrite(log[i])
  {
    if log == [] then 0
    else Writes(log[..|log| - 1]) + (if IsWrite(log[|log| - 1]) then 1 else 0)
  }

  lemma {:induction false} WritesAppend(log: seq<Call>, more: seq<Call>)
    ensures Writes(log + more) == Writes(log) + Writes(more)
    decreases |more|
  {
    if more == [] {
      assert log + more == log;
    } else {
      assert (log + more)[..|log + more| - 1] == log + more[..|more| - 1];
      WritesAppend(log, more[..|more| - 1]);
    }
  }

  /** Setup never adds a record for its (zone, name, type) when the lookup
      answers and one already exists, and it adds at most one otherwise: the
      number of matching records stays the same or goes from zero to one. */
  lemma SetupNeverDuplicates(s: Site, cfg: Config, env: Lookup, zoneId: string)
    requires WellFormed(cfg, env) && Truthy(cfg.zone)
    requires LookupOp !in s.provider.failing
    ensures var q := ByName(zoneId, DnsName(cfg.zone.value, cfg.subdomain), cfg.rrtype);
            var before := Count(s.provider.records, q);
            var after := Count(SetupRun(s, cfg, env).site.provider.records, q);
            after == before || (before == 0 && after == 1)
  {
    var r := SetupRun(s, cfg, env);
    var q := ByName(zoneId, DnsName(cfg.zone.value, cfg.subdomain), cfg.rrtype);
    if r.site.provider.records != s.provider.records {
      var m := r.outcome.saved;
      var last := Record(m.recordId, m.zoneId, m.name, cfg.rrtype, Resolve(cfg, env).value, cfg.proxied);
      CountAppend(s.provider.records, last, q);
    }
  }

  /** Running setup twice leaves at most one record for the managed (zone,
      name, type) when there was at most one before, whatever the two runs
      resolve, as long as the lookups answer. */
  lemma SetupTwiceKeepsOneRecord(s: Site, cfg: Config, env1: Lookup, env2: Lookup, zoneId: string)
    requires WellFormed(cfg, env1) && WellFormed(cfg, env2) && Truthy(cfg.zone)
    requires LookupOp !in s.provider.failing
    requires Count(s.provider.records, ByName(zoneId, DnsName(cfg.zone.value, cfg.subdomain), cfg.rrtype)) <= 1
    ensures var twice := SetupRun(SetupRun(s, cfg, env1).site, cfg, env2).site;
            Count(twice.provider.records, ByName(zoneId, DnsName(cfg.zone.value, cfg.subdomain), cfg.rrtype)) <= 1
  {
    var once := SetupRun(s, cfg, env1).site;
    SetupNeverDuplicates(s, cfg, env1, zoneId);
    SetupNeverDuplicates(once, cfg, env2, zoneId);
  }

  /** A second successful setup adopts the record the first one persisted:
      it writes no record and persists the same zone, record and name. */
  lemma SetupIdempotent(s: Site, cfg: Config, env1: Lookup, env2: Lookup)
    requires WellFormed(cfg, env1) && WellFormed(cfg, env2)
    requires LookupOp !in s.provider.failing
    requires SetupRun(s, cfg, env1).outcome.Configured?
    ensures var first := SetupRun(s, cfg, env1);
            var second := SetupRun(first.site, cfg, env2);
            && second.site.provider.records == first.site.provider.records
            && (second.outcome.Configured? ==> second.outcome == first.outcome)
  {
    var first := SetupRun(s, cfg, env1);
    var m := first.outcome.saved;
    var q := ByName(m.zoneId, m.name, cfg.rrtype);
    var rs := first.site.provider.records;
    if rs != s.provider.records {
      // created: nothing matched before, so the new last record is the first match
      AppendedIsFirstMatch(s.provider.records, rs[|s.provider.records|], q);
    }
    CountZero(rs, q);
  }

  /** Without a lookup that answers, setup cannot tell "no record" from "no
      answer": with a record already there, a failing lookup and a working
      create, setup adds a second record with the same name and type. */
  lemma FailedLookupDuplicates(s: Site, cfg: Config, env: Lookup, zoneId: string)
    requires WellFormed(cfg, env) && Truthy(cfg.apiKey) && Truthy(cfg.zone)
    requires s.provider.tokenValid && s.provider.failing == {LookupOp}
    requires cfg.zone.value in s.provider.zones && s.provider.zones[cfg.zone.value] == zoneId && zoneId != []
    requires Resolve(cfg, env).Some?
    ensures var q := ByName(zoneId, DnsName(cfg.zone.value, cfg.subdomain), cfg.rrtype);
            var r := SetupRun(s, cfg, env);
            r.outcome.Configured? && Count(r.site.provider.records, q) == Count(s.provider.records, q) + 1
  {
    var r := SetupRun(s, cfg, env);
    var q := ByName(zoneId, DnsName(cfg.zone.value, cfg.subdomain), cfg.rrtype);
    var last := r.site.provider.records[|s.provider.records|];
    assert r.site.provider.records == s.provider.records + [last];
    CountAppend(s.provider.records, last, q);
  }

  /** Update writes exactly when it resolved an address and that address
      differs from what the provider answered for the managed record,
      including when the provider answered nothing. It never writes when the
      two are equal, nor when resolution fails. */
  lemma UpdateWritesOnMismatch(s: Site, cfg: Config, env: Lookup)
    requires WellFormed(cfg, env) && s.config.Some?
    ensures var m := s.config.value;
            var stored := GetRecordContent(s.provider, m.zoneId, m.recordId).answer;
            var ip := Resolve(cfg, env);
            var mismatch := ip.Some? && ip != stored;
            var r := UpdateRun(s, cfg, env);
            && r.site.provider.log
               == s.provider.log + [ReadCall(m.zoneId, m.recordId)]
                  + (if mismatch then [PatchCall(m.zoneId, m.recordId, m.name, ip.value, cfg.rrtype, cfg.proxied)] else [])
            && Writes(r.site.provider.log) == Writes(s.provider.log) + (if mismatch then 1 else 0)
  {
    var m := s.config.value;
    var ip := Resolve(cfg, env);
    var stored := GetRecordContent(s.provider, m.zoneId, m.recordId).answer;
    var mismatch := ip.Some? && ip != stored;
    var more := [ReadCall(m.zoneId, m.recordId)]
                + (if mismatch then [PatchCall(m.zoneId, m.recordId, m.name, ip.value, cfg.rrtype, cfg.proxied)] else []);
    WritesAppend(s.provider.log, more);
    if mismatch {
      assert more[..1] == [ReadCall(m.zoneId, m.recordId)];
      assert more[..0] == [];
    } else {
      assert more[..0] == [];
    }
  }

  /** After an update that patched the record, an update that resolves the
      same address finds the provider in sync and writes nothing. */
  lemma UpdateConverges(s: Site, cfg: Config, env: Lookup)
    requires WellFormed(cfg, env)
    requires ReadOp !in s.provider.failing
    requires UpdateRun(s, cfg, env).outcome == Updated
    ensures var once := UpdateRun(s, cfg, env);
            var twice := UpdateRun(once.site, cfg, env);
            twice.outcome == InSync && twice.site.provider.records == once.site.provider.records
  {
    var m := s.config.value;
    var ip := Resolve(cfg, env);
    var stored := GetRecordContent(s.provider, m.zoneId, m.recordId);
    ReadAfterPatch(stored.after, m.zoneId, m.recordId, m.name, ip.value, cfg.rrtype, cfg.proxied);
  }

  /** A host running the daemon: the provider it talks to and its persisted
      file. */
  class Host {
    var provider: Provider
    var config: Option<ManagedRecord>

    constructor (provider: Provider, config: Option<ManagedRecord>)
      ensures this.provider == provider && this.config == config
    {
      this.provider := provider;
      this.config := config;
    }

    function State(): Site
      reads this
    {
      Site(provider, config)
    }

    /** `setup`: each fatal condition returns at once, as `sys.exit(1)` does. */
    method Setup(cfg: Config, env: Lookup) returns (outcome: SetupOutcome)
      requires WellFormed(cfg, env)
      modifies this
      ensures SetupResult(State(), outcome) == SetupRun(old(State()), cfg, env)
    {
      if !Truthy(cfg.apiKey) || !Truthy(cfg.zone) {
        return Exit(MissingSettings);
      }
      var zone := cfg.zone.value;
      var verified := VerifyToken(provider);
      provider := verified.after;
      if !verified.answer {
        return Exit(InvalidCredentials);
      }
      var zoneId := GetZoneId(provider, zone);
      provider := zoneId.after;
      if !Truthy(zoneId.answer) {
        return Exit(ZoneNotFound);
      }
      var ip := Resolve(cfg, env);
      if !Truthy(ip) {
        return Exit(NoAddress);
      }
      var name := DnsName(zone, cfg.subdomain);
      var found := GetRecordId(provider, zoneId.answer.value, name, cfg.rrtype);
      provider := found.after;
      var recordId := found.answer;
      if !Truthy(recordId) {
        var created := CreateRecord(provider, zoneId.answer.value, name, ip.value, cfg.rrtype, cfg.proxied);
        provider := created.after;
        recordId := created.answer;
        if !Truthy(recordId) {
          return Exit(CreateFailed);
        }
      }
      var saved := ManagedRecord(zoneId.answer.value, recordId.value, name);
      config := Some(saved);
      return Configured(saved);
    }

    /** `update`: returns early without a config file or without an address,
        and patches only on mismatch. */
    method Update(cfg: Config, env: Lookup) returns (outcome: UpdateOutcome)
      requires WellFormed(cfg, env)
      modifies this
      ensures UpdateResult(State(), outcome) == UpdateRun(old(State()), cfg, env)
    {
      if config.None? {
        return NoConfig;
      }
      var m := config.value;
      var stored := GetRecordContent(provider, m.zoneId, m.recordId);
      provider := stored.after;
      var ip := Resolve(cfg, env);
      if !Truthy(ip) {
        return Unresolved;
      }
      if ip != stored.answer {
        var patch := UpdateRecord(provider, m.zoneId, m.recordId, m.name, ip.value, cfg.rrtype, cfg.proxied);
        provider := patch.after;
        outcome := if patch.answer then Updated else UpdateFailed;
      } else {
        outcome := InSync;
      }
    }
  }
}
