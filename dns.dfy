/** The DNS side of the reconciler: resource records as the DNS provider
    library reports them, the upsert semantics of a record write, and the
    remote DNS service that a provider client talks to. */
module Dns {
  import opened Wrappers

  /** One resource record of a zone: its name relative to the zone, its type
      ("A", "AAAA", "TXT", ...), its data and its TTL in seconds. */
  datatype Record = Record(name: string, rtype: string, data: string, ttl: int)

  /** A parsed IP address with its canonical text form. */
  datatype IpAddr = IPv4(text: string) | IPv6(text: string)

  /** One call the reconciler makes on the DNS service. */
  datatype DnsCall =
    | GetRecordsCall(zone: string)
    | SetRecordsCall(zone: string, records: seq<Record>)

  /** The record type an address record takes: "A" for an IPv4 address,
      "AAAA" for an IPv6 one. */
  function AddressType(ip: IpAddr): (t: string)
    ensures t == "A" <==> ip.IPv4?
    ensures t == "AAAA" <==> ip.IPv6?
  {
    if ip.IPv4? then "A" else "AAAA"
  }

  /** The record an address value of the provider library stands for. */
  function AddressRecord(name: string, ip: IpAddr, ttl: int): (r: Record)
    ensures r.name == name && r.data == ip.text && r.ttl == ttl
    ensures r.rtype == AddressType(ip)
  {
    Record(name, AddressType(ip), ip.text, ttl)
  }

  /** Whether `r` is an IPv4 address record named `name`. */
  predicate IsAddressOf(r: Record, name: string) {
    r.name == name && r.rtype == "A"
  }

  /** The data of the first IPv4 address record named `name`, or "" when
      there is none. */
  function CurrentIP(records: seq<Record>, name: string): string {
    if records == [] then ""
    else if IsAddressOf(records[0], name) then records[0].data
    else CurrentIP(records[1..], name)
  }

  /** CurrentIP is the data of the first matching record: later matches and
      records of other names or types do not affect it. */
  lemma {:induction false} CurrentIPIsFirstMatch(records: seq<Record>, name: string, i: nat)
    requires i < |records| && IsAddressOf(records[i], name)
    requires forall j :: 0 <= j < i ==> !IsAddressOf(records[j], name)
    ensures CurrentIP(records, name) == records[i].data
  {
    if i > 0 {
      CurrentIPIsFirstMatch(records[1..], name, i - 1);
    }
  }

  /** Without any matching record, CurrentIP is the empty string. */
  lemma {:induction false} CurrentIPNoMatch(records: seq<Record>, name: string)
    requires forall j :: 0 <= j < |records| ==> !IsAddressOf(records[j], name)
    ensures CurrentIP(records, name) == ""
  {
    if records != [] {
      CurrentIPNoMatch(records[1..], name);
    }
  }

  /** A prefix with no matching record does not change CurrentIP. */
  lemma {:induction false} CurrentIPSkipsPrefix(a: seq<Record>, b: seq<Record>, name: string)
    requires forall j :: 0 <= j < |a| ==> !IsAddressOf(a[j], name)
    ensures CurrentIP(a + b, name) == CurrentIP(b, name)
  {
    if a != [] {
      assert (a + b)[0] == a[0] && (a + b)[1..] == a[1..] + b;
      assert !IsAddressOf(a[0], name);
      assert forall j :: 0 <= j < |a[1..]| ==> a[1..][j] == a[j + 1];
      CurrentIPSkipsPrefix(a[1..], b, name);
      assert CurrentIP(a + b, name) == CurrentIP(a[1..] + b, name);
    } else {
      assert a + b == b;
    }
  }

  /** Whether some record of `records` has the name and type of `r`. */
  predicate Replaces(records: seq<Record>, r: Record) {
    exists k :: 0 <= k < |records| && records[k].name == r.name && records[k].rtype == r.rtype
  }

  /** The records of `zone` that keep their place when `records` are written. */
  function Untouched(zone: seq<Record>, records: seq<Record>): (kept: seq<Record>)
    ensures |kept| <= |zone|
    ensures forall j :: 0 <= j < |kept| ==> kept[j] in zone && !Replaces(records, kept[j])
    ensures forall r :: r in zone && !Replaces(records, r) ==> r in kept
  {
    if zone == [] then []
    else if Replaces(records, zone[0]) then Untouched(zone[1..], records)
    else [zone[0]] + Untouched(zone[1..], records)
  }

  /** A record write: for every (name, type) pair among `records`, the zone
      afterwards holds exactly the given records of that pair; every other
      record of the zone stays, in its order. */
  function Upsert(zone: seq<Record>, records: seq<Record>): (z: seq<Record>)
    ensures forall r :: r in records ==> r in z
    ensures forall r :: r in zone && !Replaces(records, r) ==> r in z
    ensures forall r :: r in z ==> r in records || (r in zone && !Replaces(records, r))
  {
    Untouched(zone, records) + records
  }

  /** After writing the single address record `r`, the zone's current IPv4
      address for `r.name` is the record's data. */
  lemma UpsertSetsCurrentIP(zone: seq<Record>, r: Record)
    requires r.rtype == "A"
    ensures CurrentIP(Upsert(zone, [r]), r.name) == r.data
  {
    var kept := Untouched(zone, [r]);
    forall j | 0 <= j < |kept|
      ensures !IsAddressOf(kept[j], r.name)
    {
      assert !Replaces([r], kept[j]);
      assert [r][0] == r;
    }
    CurrentIPSkipsPrefix(kept, [r], r.name);
  }

  /** Writing a record that is not an IPv4 address record of `name` (one of
      another name, or of another type such as "AAAA") leaves the current
      IPv4 address of `name` as it was. */
  lemma {:induction false} UpsertKeepsCurrentIP(zone: seq<Record>, r: Record, name: string)
    requires !IsAddressOf(r, name)
    ensures CurrentIP(Upsert(zone, [r]), name) == CurrentIP(zone, name)
  {
    UntouchedKeepsCurrentIP(zone, r, name);
  }

  lemma {:induction false} UntouchedKeepsCurrentIP(zone: seq<Record>, r: Record, name: string)
    requires !IsAddressOf(r, name)
    ensures CurrentIP(Untouched(zone, [r]) + [r], name) == CurrentIP(zone, name)
  {
    if zone == [] {
      CurrentIPNoMatch([r], name);
    } else {
      var rest := Untouched(zone[1..], [r]);
      if Replaces([r], zone[0]) {
        assert !IsAddressOf(zone[0], name);
        UntouchedKeepsCurrentIP(zone[1..], r, name);
      } else {
        assert Untouched(zone, [r]) + [r] == [zone[0]] + (rest + [r]);
        UntouchedKeepsCurrentIP(zone[1..], r, name);
      }
    }
  }

  /** The remote DNS service behind a provider client: the records of every
      zone it serves, and the trace of calls it has received. Whether a call
      reaches the service (network, authentication) is an input of each call. */
  class DnsService {
    var zones: map<string, seq<Record>>
    ghost var calls: seq<DnsCall>

    constructor (zones: map<string, seq<Record>>)
      ensures this.zones == zones && calls == []
    {
      this.zones := zones;
      calls := [];
    }

    /** `GetRecords`: all records of `zone`, or an error when the service is
        unreachable or does not serve the zone. Records the call. */
    method GetRecords(zone: string, reachable: bool) returns (res: Result<seq<Record>>)
      modifies this`calls
      ensures calls == old(calls) + [GetRecordsCall(zone)]
      ensures res.Success? <==> reachable && zone in zones
      ensures res.Success? ==> res.value == zones[zone]
    {
      calls := calls + [GetRecordsCall(zone)];
      if reachable && zone in zones {
        res := Success(zones[zone]);
      } else if !reachable {
        res := Failure("DNS service unreachable");
      } else {
        res := Failure("zone " + zone + " not found");
      }
    }

    /** `SetRecords`: upserts `records` into `zone`, or fails and changes
        nothing. Records the call. */
    method SetRecords(zone: string, records: seq<Record>, reachable: bool) returns (err: Option<string>)
      modifies this
      ensures calls == old(calls) + [SetRecordsCall(zone, records)]
      ensures err.None? <==> reachable && zone in old(zones)
      ensures err.None? ==> zones == old(zones)[zone := Upsert(old(zones)[zone], records)]
      ensures err.Some? ==> zones == old(zones)
    {
      calls := calls + [SetRecordsCall(zone, records)];
      if reachable && zone in zones {
        zones := zones[zone := Upsert(zones[zone], records)];
        err := None;
      } else if !reachable {
        err := Some("DNS service unreachable");
      } else {
        err := Some("zone " + zone + " not found");
      }
    }
  }
}
