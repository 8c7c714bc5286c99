/** The DNS provider as the core sees it through its record API: a fake
    registrar whose state is a value. Every operation appends its request to
    the call log; every transport error or non-success status collapses to the
    operation's "absent" or `false` answer, as `api_call` returning `{}` does.
    Which operations fail is part of the fake's state. */
module Registrar {
  import opened Strings

  /** Record ids the provider hands out are never empty. */
  type RecordId = s: string | s != [] witness "r"

  /** One DNS record as the provider stores it. */
  datatype Record = Record(id: RecordId, zoneId: string, name: string, rrtype: string, content: string, proxied: bool)

  /** The record API's operations, for naming the ones that currently fail. */
  datatype Op = VerifyOp | ZoneOp | LookupOp | CreateOp | PatchOp | ReadOp

  /** A request the core sent to the provider. */
  datatype Call =
    | VerifyCall
    | ZoneCall(zone: string)
    | LookupCall(zoneId: string, name: string, rrtype: string)
    | CreateCall(zoneId: string, name: string, content: string, rrtype: string, proxied: bool)
    | PatchCall(zoneId: string, recordId: string, name: string, content: string, rrtype: string, proxied: bool)
    | ReadCall(zoneId: string, recordId: string)

  /** Requests that change records: POST and PATCH. */
  predicate IsWrite(c: Call) {
    c.CreateCall? || c.PatchCall?
  }

  /** The provider's state: whether the credentials are accepted, zone name to
      zone id, the records in the order a listing returns them, the operations
      that currently fail, and every request received so far. */
  datatype Provider = Provider(
    tokenValid: bool,
    zones: map<string, string>,
    records: seq<Record>,
    failing: set<Op>,
    log: seq<Call>)

  /** A provider's answer to one request and its state afterwards. */
  datatype Reply<T> = Reply(after: Provider, answer: T)

  /** No two records share an id. */
  ghost predicate Valid(p: Provider) {
    forall i, j :: 0 <= i < j < |p.records| ==> p.records[i].id != p.records[j].id
  }

  /** The two ways the core looks records up: by name and type within a zone
      (a filtered listing), or by id within a zone (a record URL). */
  datatype Query =
    | ByName(zoneId: string, name: string, rrtype: string)
    | ById(zoneId: string, id: string)

  predicate Matches(r: Record, q: Query) {
    match q
    case ByName(zoneId, name, rrtype) => r.zoneId == zoneId && r.name == name && r.rrtype == rrtype
    case ById(zoneId, id) => r.zoneId == zoneId && r.id == id
  }

  /** The position of the first record matching `q`, `|rs|` when none does. */
  function FirstMatch(rs: seq<Record>, q: Query): (k: nat)
    ensures k <= |rs|
    ensures k < |rs| ==> Matches(rs[k], q)
    ensures forall i :: 0 <= i < k ==> !Matches(rs[i], q)
  {
    if rs == [] then 0
    else if Matches(rs[0], q) then 0
    else 1 + FirstMatch(rs[1..], q)
  }

  /** How many records match `q`. */
  function Count(rs: seq<Record>, q: Query): (n: nat)
    ensures n <= |rs|
    ensures n == 0 <==> forall i :: 0 <= i < |rs| ==> !Matches(rs[i], q)
  {
    if rs == [] then 0
    else (if Matches(rs[0], q) then 1 else 0) + Count(rs[1..], q)
  }

  lemma {:induction false} CountZero(rs: seq<Record>, q: Query)
    ensures Count(rs, q) == 0 <==> FirstMatch(rs, q) == |rs|
  {
    if rs != [] {
      CountZero(rs[1..], q);
    }
  }

  lemma {:induction false} CountAppend(rs: seq<Record>, r: Record, q: Query)
    ensures Count(rs + [r], q) == Count(rs, q) + (if Matches(r, q) then 1 else 0)
  {
    if rs == [] {
      assert rs + [r] == [r];
    } else {
      assert (rs + [r])[1..] == rs[1..] + [r];
      CountAppend(rs[1..], r, q);
    }
  }

  /** When nothing matched before, a matching record appended at the end is
      the first match. */
  lemma {:induction false} AppendedIsFirstMatch(rs: seq<Record>, r: Record, q: Query)
    requires Count(rs, q) == 0 && Matches(r, q)
    ensures FirstMatch(rs + [r], q) == |rs|
  {
    if rs != [] {
      assert (rs + [r])[1..] == rs[1..] + [r];
      AppendedIsFirstMatch(rs[1..], r, q);
    }
  }

  /** The length of the longest id. */
  function LongestId(rs: seq<Record>): (n: nat)
    ensures forall i :: 0 <= i < |rs| ==> |rs[i].id| <= n
  {
    if rs == [] then 0
    else var tail := LongestId(rs[1..]);
         if |rs[0].id| > tail then |rs[0].id| else tail
  }

  /** The id the fake provider gives a new record: longer than every id it
      holds, so never one of them. */
  function FreshId(rs: seq<Record>): (id: RecordId)
    ensures forall i :: 0 <= i < |rs| ==> rs[i].id != id
  {
    seq(LongestId(rs) + 1, _ => 'r')
  }

  function Logged(p: Provider, c: Call): Provider {
    p.(log := p.log + [c])
  }

  /** `verify_token`: true only when the provider accepts the credentials and
      answers. */
  function VerifyToken(p: Provider): (r: Reply<bool>)
    ensures r.after == Logged(p, VerifyCall)
    ensures r.answer <==> p.tokenValid && VerifyOp !in p.failing
  {
    Reply(Logged(p, VerifyCall), p.tokenValid && VerifyOp !in p.failing)
  }

  /** `get_zone_id`: the zone's id, or `None` when the zone is unknown or the
      request fails. */
  function GetZoneId(p: Provider, zone: string): (r: Reply<Option<string>>)
    ensures r.after == Logged(p, ZoneCall(zone))
    ensures r.answer.Some? <==> zone in p.zones && ZoneOp !in p.failing
    ensures r.answer.Some? ==> r.answer.value == p.zones[zone]
  {
    var answer := if zone in p.zones && ZoneOp !in p.failing then Some(p.zones[zone]) else None;
    Reply(Logged(p, ZoneCall(zone)), answer)
  }

  /** `get_dns_record_id`: the id of the first listed record with that name
      and type in the zone; `None` when there is none, and also when the
      request fails, which the caller cannot tell apart. */
  function GetRecordId(p: Provider, zoneId: string, name: string, rrtype: string): (r: Reply<Option<string>>)
    ensures r.after == Logged(p, LookupCall(zoneId, name, rrtype))
    ensures LookupOp in p.failing ==> r.answer.None?
    ensures LookupOp !in p.failing ==> (r.answer.None? <==> Count(p.records, ByName(zoneId, name, rrtype)) == 0)
    ensures r.answer.Some? ==>
      var k := FirstMatch(p.records, ByName(zoneId, name, rrtype));
      k < |p.records| && r.answer.value == p.records[k].id
  {
    var k := FirstMatch(p.records, ByName(zoneId, name, rrtype));
    CountZero(p.records, ByName(zoneId, name, rrtype));
    var answer := if LookupOp !in p.failing && k < |p.records| then Some(p.records[k].id) else None;
    Reply(Logged(p, LookupCall(zoneId, name, rrtype)), answer)
  }

  /** `create_dns_record`: on success the new record is listed last, under an
      id no other record has, and its id is returned; on failure nothing but
      the log changes. */
  function CreateRecord(p: Provider, zoneId: string, name: string, content: string, rrtype: string, proxied: bool)
    : (r: Reply<Option<string>>)
    ensures CreateOp in p.failing ==> r == Reply(Logged(p, CreateCall(zoneId, name, content, rrtype, proxied)), None)
    ensures CreateOp !in p.failing ==>
      && r.answer.Some?
      && r.answer.value != []
      && (forall i :: 0 <= i < |p.records| ==> p.records[i].id != r.answer.value)
      && r.after == Logged(p, CreateCall(zoneId, name, content, rrtype, proxied))
                     .(records := p.records + [Record(r.answer.value, zoneId, name, rrtype, content, proxied)])
    ensures Valid(p) ==> Valid(r.after)
  {
    var logged := Logged(p, CreateCall(zoneId, name, content, rrtype, proxied));
    if CreateOp in p.failing then Reply(logged, None)
    else
      var id := FreshId(p.records);
      Reply(logged.(records := p.records + [Record(id, zoneId, name, rrtype, content, proxied)]), Some(id))
  }

  /** `update_dns_record`: true exactly when the request succeeds and the
      record exists in the zone; then that record, and only it, takes the new
      name, type, content and proxy flag. */
  function UpdateRecord(p: Provider, zoneId: string, recordId: string, name: string, content: string,
                        rrtype: string, proxied: bool): (r: Reply<bool>)
    ensures r.answer <==> PatchOp !in p.failing && Count(p.records, ById(zoneId, recordId)) > 0
    ensures r.after.log == p.log + [PatchCall(zoneId, recordId, name, content, rrtype, proxied)]
    ensures r.after.(log := p.log) == (if r.answer then p.(records := Patched(p.records, zoneId, recordId, name, content, rrtype, proxied)) else p)
    ensures Valid(p) ==> Valid(r.after)
  {
    var k := FirstMatch(p.records, ById(zoneId, recordId));
    CountZero(p.records, ById(zoneId, recordId));
    var logged := Logged(p, PatchCall(zoneId, recordId, name, content, rrtype, proxied));
    if PatchOp !in p.failing && k < |p.records| then
      Reply(logged.(records := Patched(p.records, zoneId, recordId, name, content, rrtype, proxied)), true)
    else Reply(logged, false)
  }

  /** The records after a successful PATCH of `recordId`: the first record
      with that id in the zone gets the new fields and keeps its id and zone;
      every other record is unchanged. */
  function Patched(rs: seq<Record>, zoneId: string, recordId: string, name: string, content: string,
                   rrtype: string, proxied: bool): (out: seq<Record>)
    ensures |out| == |rs|
    ensures forall i :: 0 <= i < |rs| ==> out[i].id == rs[i].id && out[i].zoneId == rs[i].zoneId
    ensures forall i :: 0 <= i < |rs| && i != FirstMatch(rs, ById(zoneId, recordId)) ==> out[i] == rs[i]
    ensures var k := FirstMatch(rs, ById(zoneId, recordId));
            k < |rs| ==> out[k] == rs[k].(name := name, rrtype := rrtype, content := content, proxied := proxied)
  {
    var k := FirstMatch(rs, ById(zoneId, recordId));
    if k < |rs| then rs[k := rs[k].(name := name, rrtype := rrtype, content := content, proxied := proxied)] else rs
  }

  /** `get_dns_record_ip`: the content of the record with that id in the
      zone, or `None` when there is none or the request fails. */
  function GetRecordContent(p: Provider, zoneId: string, recordId: string): (r: Reply<Option<string>>)
    ensures r.after == Logged(p, ReadCall(zoneId, recordId))
    ensures r.answer.Some? <==> ReadOp !in p.failing && Count(p.records, ById(zoneId, recordId)) > 0
    ensures r.answer.Some? ==>
      var k := FirstMatch(p.records, ById(zoneId, recordId));
      k < |p.records| && r.answer.value == p.records[k].content
  {
    var k := FirstMatch(p.records, ById(zoneId, recordId));
    CountZero(p.records, ById(zoneId, recordId));
    var answer := if ReadOp !in p.failing && k < |p.records| then Some(p.records[k].content) else None;
    Reply(Logged(p, ReadCall(zoneId, recordId)), answer)
  }

  /** Reading a record right after a successful PATCH of it gives the new
      content back. */
  lemma ReadAfterPatch(p: Provider, zoneId: string, recordId: string, name: string, content: string,
                       rrtype: string, proxied: bool)
    requires ReadOp !in p.failing
    requires UpdateRecord(p, zoneId, recordId, name, content, rrtype, proxied).answer
    ensures GetRecordContent(UpdateRecord(p, zoneId, recordId, name, content, rrtype, proxied).after, zoneId, recordId).answer
            == Some(content)
  {
    var q := ById(zoneId, recordId);
    var k := FirstMatch(p.records, q);
    CountZero(p.records, q);
    var after := UpdateRecord(p, zoneId, recordId, name, content, rrtype, proxied).after;
    assert after.records[k].content == content && Matches(after.records[k], q);
    assert FirstMatch(after.records, q) == k;
    CountZero(after.records, q);
  }
}
