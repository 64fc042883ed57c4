/** Route 53 hosted-zone helpers: the identifier cleaners `CleanZoneID` and
    `CleanChangeID` and the name normaliser `TrimTrailingPeriod`, whose
    behaviour the zone tests pin down by tables, and the pure checks the zone
    tests run over a fetched zone: domain-name equality, VPC association, and
    the 100-record limit of the random record batch. */
module Route53Zone {
  import opened Aws

  /** `strings.HasPrefix`. */
  predicate HasPrefix(s: string, prefix: string) {
    |prefix| <= |s| && s[..|prefix|] == prefix
  }

  /** `strings.HasSuffix`. */
  predicate HasSuffix(s: string, suffix: string) {
    |suffix| <= |s| && s[|s| - |suffix|..] == suffix
  }

  /** `strings.TrimPrefix`: `s` without a leading `prefix`, or `s` itself. */
  function TrimPrefix(s: string, prefix: string): (r: string)
    ensures HasPrefix(s, prefix) ==> prefix + r == s
    ensures !HasPrefix(s, prefix) ==> r == s
  {
    if HasPrefix(s, prefix) then s[|prefix|..] else s
  }

  /** `strings.TrimSuffix`: `s` without a trailing `suffix`, or `s` itself. */
  function TrimSuffix(s: string, suffix: string): (r: string)
    ensures HasSuffix(s, suffix) ==> r + suffix == s
    ensures !HasSuffix(s, suffix) ==> r == s
  {
    if HasSuffix(s, suffix) then s[..|s| - |suffix|] else s
  }

  const HostedZonePrefix := "/hostedzone/"
  const ChangePrefix := "/change/"

  /** `CleanZoneID`: a hosted zone ID without its "/hostedzone/" prefix. */
  function CleanZoneID(id: string): string {
    TrimPrefix(id, HostedZonePrefix)
  }

  /** `CleanChangeID`: a change ID without its "/change/" prefix. */
  function CleanChangeID(id: string): string {
    TrimPrefix(id, ChangePrefix)
  }

  /** Cleaning undoes the API's "/hostedzone/" prefix, and leaves an ID
      without that prefix unchanged. */
  lemma {:induction false} CleanZoneIDRoundTrip(id: string)
    ensures CleanZoneID(HostedZonePrefix + id) == id
    ensures !HasPrefix(id, HostedZonePrefix) ==> CleanZoneID(id) == id
  {
    assert (HostedZonePrefix + id)[..|HostedZonePrefix|] == HostedZonePrefix;
  }

  /** Cleaning undoes the API's "/change/" prefix, and leaves an ID without
      that prefix unchanged. */
  lemma {:induction false} CleanChangeIDRoundTrip(id: string)
    ensures CleanChangeID(ChangePrefix + id) == id
    ensures !HasPrefix(id, ChangePrefix) ==> CleanChangeID(id) == id
  {
    assert (ChangePrefix + id)[..|ChangePrefix|] == ChangePrefix;
  }

  /** The `TestCleanZoneID` table. */
  lemma CleanZoneIDTable()
    ensures CleanZoneID("/hostedzone/foo") == "foo"
    ensures CleanZoneID("/change/foo") == "/change/foo"
    ensures CleanZoneID("/bar") == "/bar"
  {
    CleanZoneIDRoundTrip("foo");
    assert !HasPrefix("/change/foo", HostedZonePrefix) by {
      assert "/change/foo"[1] != HostedZonePrefix[1];
    }
    assert !HasPrefix("/bar", HostedZonePrefix);
  }

  /** The `TestCleanChangeID` table. */
  lemma CleanChangeIDTable()
    ensures CleanChangeID("/hostedzone/foo") == "/hostedzone/foo"
    ensures CleanChangeID("/change/foo") == "foo"
    ensures CleanChangeID("/bar") == "/bar"
  {
    CleanChangeIDRoundTrip("foo");
    assert !HasPrefix("/hostedzone/foo", ChangePrefix) by {
      assert "/hostedzone/foo"[1] != ChangePrefix[1];
    }
    assert !HasPrefix("/bar", ChangePrefix) by {
      assert "/bar"[1] != ChangePrefix[1];
    }
  }

  /** The `interface{}` argument of `TrimTrailingPeriod`: a string, a string
      pointer, nil, or a value of another dynamic type (an integer stands for
      all of them). */
  datatype Value = Str(s: string) | StrPtr(p: Option<string>) | Nil | Int(n: int)

  /** `TrimTrailingPeriod`: the name as a string without one trailing
      period, except that "." stays "."; anything that is not a string or a
      string pointer gives "". */
  function TrimTrailingPeriod(v: Value): string {
    match v
    case Str(s) => TrimName(s)
    case StrPtr(p) => TrimName(StringValue(p))
    case _ => ""
  }

  /** The string part of `TrimTrailingPeriod`. */
  function TrimName(str: string): string {
    if str == "." then str else TrimSuffix(str, ".")
  }

  /** A name made absolute by a trailing period comes back as it was, unless
      it is the empty name, which stays the root ".". */
  lemma {:induction false} TrimTrailingPeriodRoundTrip(name: string)
    ensures name != "" ==> TrimTrailingPeriod(Str(name + ".")) == name
    ensures name == "" ==> TrimTrailingPeriod(Str(name + ".")) == "."
  {
    var s := name + ".";
    assert s[|s| - 1..] == ".";
    assert s[..|s| - 1] == name;
  }

  /** A name that does not end in a period is returned unchanged. */
  lemma TrimTrailingPeriodKeeps(name: string)
    requires !HasSuffix(name, ".")
    ensures TrimTrailingPeriod(Str(name)) == name
  {
  }

  /** At most one period is removed: the result is the name itself or the
      name less its last character, which is a period. */
  lemma TrimTrailingPeriodRemovesAtMostOne(name: string)
    ensures var r := TrimTrailingPeriod(Str(name));
      r == name || (r + "." == name && name != ".")
  {
  }

  /** A string pointer is read as the string it points to; a nil pointer,
      nil, and values of any other type give "". */
  lemma TrimTrailingPeriodInputs(s: string, n: int)
    ensures TrimTrailingPeriod(StrPtr(Some(s))) == TrimTrailingPeriod(Str(s))
    ensures TrimTrailingPeriod(StrPtr(None)) == ""
    ensures TrimTrailingPeriod(Nil) == "" && TrimTrailingPeriod(Int(n)) == ""
  {
  }

  /** The `TestTrimTrailingPeriod` table. */
  lemma TrimTrailingPeriodTable()
    ensures TrimTrailingPeriod(Str("example.com")) == "example.com"
    ensures TrimTrailingPeriod(Str("example.com.")) == "example.com"
    ensures TrimTrailingPeriod(Str("www.example.com.")) == "www.example.com"
    ensures TrimTrailingPeriod(Str("")) == ""
    ensures TrimTrailingPeriod(Str(".")) == "."
    ensures TrimTrailingPeriod(StrPtr(Some("example.com"))) == "example.com"
    ensures TrimTrailingPeriod(StrPtr(Some("example.com."))) == "example.com"
    ensures TrimTrailingPeriod(StrPtr(None)) == ""
    ensures TrimTrailingPeriod(Int(42)) == ""
    ensures TrimTrailingPeriod(Nil) == ""
  {
    TrimTrailingPeriodRoundTrip("example.com");
    TrimTrailingPeriodRoundTrip("www.example.com");
    assert !HasSuffix("example.com", ".");
  }

  /** `route53.HostedZone`: its ID and name. */
  datatype HostedZone = HostedZone(id: Option<string>, name: Option<string>)
  /** `route53.VPC`. */
  datatype Vpc = Vpc(vpcId: Option<string>, vpcRegion: Option<string>)
  /** `route53.GetHostedZoneOutput`: the zone and the VPCs associated with it. */
  datatype GetHostedZoneOutput = GetHostedZoneOutput(hostedZone: HostedZone, vpcs: seq<Vpc>)

  /** `terraform.InstanceState` and `terraform.ResourceState`: a resource's
      ID and attributes. */
  datatype InstanceState = InstanceState(id: string, attributes: map<string, string>)
  datatype ResourceState = ResourceState(resourceType: string, primary: InstanceState)

  /** The error a check returns: `None` is nil. */
  type CheckError = Option<string>

  /** `testAccCheckDomainName`: the zone's name must be set and equal to
      `domain`. */
  function CheckDomainName(zone: GetHostedZoneOutput, domain: string): (r: CheckError)
    ensures r == None <==> zone.hostedZone.name == Some(domain)
    ensures zone.hostedZone.name == None ==> r == Some("Empty name in HostedZone for domain " + domain)
    ensures zone.hostedZone.name.Some? && zone.hostedZone.name.value != domain ==>
      r == Some("Invalid domain name. Expected " + domain + " is " + zone.hostedZone.name.value)
  {
    if zone.hostedZone.name.None? then
      Some("Empty name in HostedZone for domain " + domain)
    else if StringValue(zone.hostedZone.name) == domain then
      None
    else
      Some("Invalid domain name. Expected " + domain + " is " + zone.hostedZone.name.value)
  }

  /** Some VPC of the zone has the ID `id`. */
  predicate AssociatedWith(zone: GetHostedZoneOutput, id: string) {
    exists i :: 0 <= i < |zone.vpcs| && StringValue(zone.vpcs[i].vpcId) == id
  }

  /** `testAccCheckRoute53ZoneAssociatesWithVpc`: the resource `n` of the
      state must exist, have an ID, and that ID must be the ID of one of the
      zone's VPCs. */
  method CheckZoneAssociatesWithVpc(resources: map<string, ResourceState>, n: string, zone: GetHostedZoneOutput)
    returns (r: CheckError)
    ensures r == None <==> n in resources && resources[n].primary.id != "" && AssociatedWith(zone, resources[n].primary.id)
    ensures n !in resources ==> r == Some("Not found: " + n)
    ensures n in resources && resources[n].primary.id == "" ==> r == Some("No VPC ID is set")
    ensures n in resources && resources[n].primary.id != "" && !AssociatedWith(zone, resources[n].primary.id) ==>
      r == Some("VPC: " + n + " is not associated to Zone: " + CleanZoneID(StringValue(zone.hostedZone.id)))
  {
    if n !in resources {
      return Some("Not found: " + n);
    }
    var rs := resources[n];
    if rs.primary.id == "" {
      return Some("No VPC ID is set");
    }
    for i := 0 to |zone.vpcs|
      invariant forall j :: 0 <= j < i ==> StringValue(zone.vpcs[j].vpcId) != rs.primary.id
    {
      if StringValue(zone.vpcs[i].vpcId) == rs.primary.id {
        return None;
      }
    }
    return Some("VPC: " + n + " is not associated to Zone: " + CleanZoneID(StringValue(zone.hostedZone.id)));
  }

  /** The largest number of record sets the API accepts in one batch. */
  const MaxRecordsPerBatch := 100
  const BatchLimitMessage := "Route53 API only allows 100 record sets in a single batch"

  /** `route53.ResourceRecord`, `route53.ResourceRecordSet`, `route53.Change`,
      `route53.ChangeBatch` and `route53.ChangeResourceRecordSetsInput`. */
  datatype ResourceRecord = ResourceRecord(value: Option<string>)
  datatype ResourceRecordSet = ResourceRecordSet(
    name: Option<string>, recordType: Option<string>, resourceRecords: seq<ResourceRecord>, ttl: Option<int>)
  datatype Change = Change(action: Option<string>, resourceRecordSet: ResourceRecordSet)
  datatype ChangeBatch = ChangeBatch(comment: Option<string>, changes: seq<Change>)
  datatype ChangeResourceRecordSetsInput = ChangeResourceRecordSetsInput(hostedZoneId: Option<string>, changeBatch: ChangeBatch)

  datatype Result<T> = Ok(value: T) | Err(message: string)

  /** `fmt.Sprintf("%d", n)` for a non-negative `n`. */
  function Decimal(n: nat): (r: string)
    ensures |r| >= 1
    decreases n
  {
    var digit := "0123456789"[n % 10];
    if n < 10 then [digit] else Decimal(n / 10) + [digit]
  }

  /** The name of a random record of the zone: "<r>-tf-acc-random.<zone>". */
  function RandomRecordName(r: nat, zoneName: string): string {
    Decimal(r) + "-tf-acc-random." + zoneName
  }

  /** The request `testAccCreateRandomRoute53RecordsInZoneId` sends: an
      error for more than 100 records, before anything is built; otherwise
      one UPSERT of a CNAME record with TTL 30 pointing at "random.<zone>" per
      record, named "<n>-tf-acc-random.<zone>" where `n` is the next value of
      `sdkacctest.RandInt()` (here `rand(i)` for the i-th record). A negative
      count builds no change. The source dereferences the zone name for each
      record it builds. */
  method BuildRandomRecordsRequest(zone: GetHostedZoneOutput, recordsCount: int, rand: nat -> nat)
    returns (r: Result<ChangeResourceRecordSetsInput>)
    requires recordsCount > MaxRecordsPerBatch || recordsCount <= 0 || zone.hostedZone.name.Some?
    ensures r.Err? <==> recordsCount > MaxRecordsPerBatch
    ensures r.Err? ==> r.message == BatchLimitMessage
    ensures r.Ok? ==>
      && r.value.hostedZoneId == zone.hostedZone.id
      && r.value.changeBatch.comment == Some("Generated by Terraform")
      && |r.value.changeBatch.changes| == (if recordsCount < 0 then 0 else recordsCount)
    ensures r.Ok? ==> forall i :: 0 <= i < |r.value.changeBatch.changes| ==>
      var c := r.value.changeBatch.changes[i];
      && c.action == Some("UPSERT")
      && c.resourceRecordSet.name == Some(RandomRecordName(rand(i), zone.hostedZone.name.value))
      && c.resourceRecordSet.recordType == Some("CNAME")
      && c.resourceRecordSet.resourceRecords == [ResourceRecord(Some("random." + zone.hostedZone.name.value))]
      && c.resourceRecordSet.ttl == Some(30)
  {
    var changes: seq<Change> := [];
    if recordsCount > MaxRecordsPerBatch {
      return Err(BatchLimitMessage);
    }
    var i := 0;
    while i < recordsCount
      invariant 0 <= i <= (if recordsCount < 0 then 0 else recordsCount)
      invariant |changes| == i
      invariant i > 0 ==> zone.hostedZone.name.Some?
      invariant forall j :: 0 <= j < i ==>
        changes[j] == Change(Some("UPSERT"), ResourceRecordSet(
          Some(RandomRecordName(rand(j), zone.hostedZone.name.value)), Some("CNAME"),
          [ResourceRecord(Some("random." + zone.hostedZone.name.value))], Some(30)))
    {
      var name := zone.hostedZone.name.value;
      changes := changes + [Change(Some("UPSERT"), ResourceRecordSet(
        Some(RandomRecordName(rand(i), name)), Some("CNAME"), [ResourceRecord(Some("random." + name))], Some(30)))];
      i := i + 1;
    }
    return Ok(ChangeResourceRecordSetsInput(zone.hostedZone.id, ChangeBatch(Some("Generated by Terraform"), changes)));
  }
}
