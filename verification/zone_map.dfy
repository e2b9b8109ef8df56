/** `az_map_account`: the per-account map from region to logical-to-physical zone names. */
module ZoneMap {
  import opened Outcomes
  import opened Seqs
  import opened Provider
  import opened Roles

  /** One region's `zone_dict`: logical zone name to physical zone id. */
  type ZoneDict = map<string, string>

  /** The per-account document: `AccountId` and `Zones[region] = [zone_dict]`. */
  datatype AccountMap = AccountMap(accountId: string, zones: map<string, seq<ZoneDict>>)

  /** The `ZoneName` of every record, in reply order. */
  function Names(zones: seq<Zone>): seq<string> {
    seq(|zones|, i requires 0 <= i < |zones| => zones[i].zoneName)
  }

  /** The `zone_dict` built from one reply, record by record, later records overwriting earlier ones. */
  function ZoneDictOf(zones: seq<Zone>): (d: ZoneDict)
    ensures forall i :: 0 <= i < |zones| ==> zones[i].zoneName in d
    ensures forall n :: n in d ==> n in Names(zones)
  {
    if |zones| == 0 then map[]
    else
      var init := zones[..|zones| - 1];
      assert Names(zones) == Names(init) + [zones[|zones| - 1].zoneName];
      ZoneDictOf(init)[zones[|zones| - 1].zoneName := zones[|zones| - 1].zoneId]
  }

  /**
    The keys of a `zone_dict` are exactly the reply's zone names, and each name maps
    to the `ZoneId` of the last record that carries it.
   */
  lemma {:induction false} ZoneDictLastWins(zones: seq<Zone>, name: string)
    ensures name in ZoneDictOf(zones) <==> name in Names(zones)
    ensures name in ZoneDictOf(zones) ==>
      ZoneDictOf(zones)[name] == zones[LastIndex(Names(zones), name)].zoneId
  {
    if |zones| > 0 {
      var init := zones[..|zones| - 1];
      ZoneDictLastWins(init, name);
      assert Names(init) == Names(zones)[..|zones| - 1];
      assert Names(zones) == Names(init) + [zones[|zones| - 1].zoneName];
    }
  }

  /** The state the region loop carries: the zones so far and the last bound `response`. */
  datatype Progress = Progress(zones: map<string, seq<ZoneDict>>, response: Option<seq<Zone>>)

  /**
    One iteration of the region loop. An uncaught exception aborts the loop. A
    caught `ClientError` leaves `response` as it was, and reading it while still
    unbound fails. Otherwise the region's entry is replaced by one dict built from
    `response`, and no other region's entry changes.
   */
  function RegionStep(p: Progress, region: string, reply: ZoneReply): (r: Result<Progress, RunError>)
    ensures reply.ZoneFault? ==> r == Failure(ZoneQueryAborted(region, reply.message))
    ensures reply.ZoneError? && p.response.None? ==> r == Failure(ResponseUnbound(region))
    ensures r.Success? <==> reply.Described? || (reply.ZoneError? && p.response.Some?)
    ensures r.Success? ==> r.value.zones.Keys == p.zones.Keys + {region}
    ensures r.Success? ==> forall k :: k in p.zones && k != region ==> r.value.zones[k] == p.zones[k]
    ensures r.Success? ==> r.value.response.Some? && r.value.zones[region] == [ZoneDictOf(r.value.response.value)]
    ensures r.Success? && reply.Described? ==> r.value.response == Some(reply.zones)
    ensures r.Success? && reply.ZoneError? ==> r.value.response == p.response
    ensures r.Success? && OneDictEach(p.zones) ==> OneDictEach(r.value.zones)
  {
    if reply.ZoneFault? then Failure(ZoneQueryAborted(region, reply.message))
    else
      var response := if reply.Described? then Some(reply.zones) else p.response;
      if response.None? then Failure(ResponseUnbound(region))
      else Success(Progress(p.zones[region := [ZoneDictOf(response.value)]], response))
  }

  /** Every region's entry is a list of exactly one dict. */
  predicate OneDictEach(zones: map<string, seq<ZoneDict>>) {
    forall x :: x in zones ==> |zones[x]| == 1
  }

  /** No region's zone query raised an uncaught exception. */
  predicate NoFault(regions: seq<string>, describe: string -> ZoneReply) {
    forall i :: 0 <= i < |regions| ==> !describe(regions[i]).ZoneFault?
  }

  /** The zones of the latest region in `regions` whose query answered, if any did. */
  function LastDescribed(regions: seq<string>, describe: string -> ZoneReply): (o: Option<seq<Zone>>)
    ensures |regions| > 0 && describe(regions[0]).Described? ==> o.Some?
  {
    if |regions| == 0 then None
    else if describe(regions[|regions| - 1]).Described? then Some(describe(regions[|regions| - 1]).zones)
    else LastDescribed(regions[..|regions| - 1], describe)
  }

  /**
    The region loop of `az_map_account` over `regions`, with `describe` answering
    each region's zone query. It completes exactly when no query raised an
    uncaught exception and the first region's query answered; a `ClientError` on
    the first region fails with `response` unbound. On completion every requested
    region is a key holding exactly one dict, and the carried `response` is the
    latest answered query.
   */
  function CollectRegions(regions: seq<string>, describe: string -> ZoneReply): (r: Result<Progress, RunError>)
    ensures r.Success? <==> NoFault(regions, describe) && (|regions| == 0 || describe(regions[0]).Described?)
    ensures |regions| > 0 && describe(regions[0]).ZoneError? ==> r == Failure(ResponseUnbound(regions[0]))
    ensures r.Success? ==> r.value.response == LastDescribed(regions, describe)
    ensures r.Success? ==> forall x :: x in r.value.zones <==> x in regions
    ensures r.Success? ==> OneDictEach(r.value.zones)
  {
    if |regions| == 0 then Success(Progress(map[], None))
    else
      var init, last := regions[..|regions| - 1], regions[|regions| - 1];
      assert regions == init + [last];
      assert |init| > 0 ==> init[0] == regions[0];
      assert NoFault(regions, describe) <==> NoFault(init, describe) && !describe(last).ZoneFault?;
      assert LastDescribed(regions, describe) ==
        if describe(last).Described? then Some(describe(last).zones) else LastDescribed(init, describe);
      var prefix := CollectRegions(init, describe);
      if prefix.Failure? then
        assert |init| > 0 && !(NoFault(init, describe) && describe(init[0]).Described?);
        Failure(prefix.error)
      else
        assert |init| > 0 ==> prefix.value.response.Some?;
        RegionStep(prefix.value, last, describe(last))
  }

  /**
    The first uncaught exception, when every region before it kept the loop going,
    aborts the loop with that region and message.
   */
  lemma {:induction false} FirstFaultAborts(regions: seq<string>, describe: string -> ZoneReply, k: nat)
    requires k < |regions| && describe(regions[k]).ZoneFault?
    requires forall j :: 0 <= j < k ==> !describe(regions[j]).ZoneFault?
    requires k == 0 || describe(regions[0]).Described?
    ensures CollectRegions(regions, describe) ==
      Failure(ZoneQueryAborted(regions[k], describe(regions[k]).message))
  {
    var n := |regions|;
    var init := regions[..n - 1];
    if k < n - 1 {
      assert init[0] == regions[0];
      FirstFaultAborts(init, describe, k);
    } else {
      assert NoFault(init, describe);
      assert k > 0 ==> init[0] == regions[0];
    }
  }

  /**
    The entry of a region is built from the latest answered query up to that
    region's last occurrence in `regions`; an earlier occurrence is overwritten.
   */
  lemma {:induction false} CollectedEntry(regions: seq<string>, describe: string -> ZoneReply, i: nat)
    requires CollectRegions(regions, describe).Success?
    requires i < |regions| && LastIndex(regions, regions[i]) == i
    ensures LastDescribed(regions[..i + 1], describe).Some?
    ensures CollectRegions(regions, describe).value.zones[regions[i]] ==
      [ZoneDictOf(LastDescribed(regions[..i + 1], describe).value)]
  {
    var n := |regions|;
    var init, last := regions[..n - 1], regions[n - 1];
    assert regions[..i + 1][0] == regions[0];
    if i < n - 1 {
      assert init[0] == regions[0];
      assert LastIndex(init, regions[i]) == i;
      assert regions[i] != last;
      var prefix := CollectRegions(init, describe);
      assert prefix.Success? && CollectRegions(regions, describe) == RegionStep(prefix.value, last, describe(last));
      CollectedEntry(init, describe, i);
      assert init[..i + 1] == regions[..i + 1];
    } else {
      assert regions[..i + 1] == regions;
    }
  }

  /**
    A region whose query raises, after an earlier region answered, gets the zones
    of the most recent earlier answer rather than an empty entry.
   */
  lemma {:induction false} StaleEntryAfterFailure(regions: seq<string>, describe: string -> ZoneReply, i: nat)
    requires CollectRegions(regions, describe).Success?
    requires 0 < i < |regions| && LastIndex(regions, regions[i]) == i
    requires describe(regions[i]).ZoneError?
    ensures LastDescribed(regions[..i], describe).Some?
    ensures CollectRegions(regions, describe).value.zones[regions[i]] ==
      [ZoneDictOf(LastDescribed(regions[..i], describe).value)]
  {
    CollectedEntry(regions, describe, i);
    assert regions[..i + 1][..i] == regions[..i];
    assert regions[..i][0] == regions[0];
  }

  /** A concrete run of the loop: the second region's failure reports the first region's zones. */
  lemma StaleZonesExample()
    ensures var describe := (region: string) =>
        if region == "us-east-1" then Described([Zone("us-east-1a", "use1-az1")])
        else ZoneError("UnauthorizedOperation");
      CollectRegions(["us-east-1", "eu-west-1"], describe)
        == Success(Progress(
             map["us-east-1" := [map["us-east-1a" := "use1-az1"]],
                 "eu-west-1" := [map["us-east-1a" := "use1-az1"]]],
             Some([Zone("us-east-1a", "use1-az1")])))
  {
  }

  /**
    `az_map_account` as written: assume the role (a refusal propagates), then run
    the region loop under the granted credentials.
   */
  function MapAccount(accountId: string, roleName: string, regions: seq<string>, cloud: Cloud): (r: Result<AccountMap, RunError>)
    ensures RoleReplyFor(accountId, roleName, cloud).Refused? ==>
      r == Failure(RoleRefused(RoleReplyFor(accountId, roleName, cloud).message))
    ensures RoleReplyFor(accountId, roleName, cloud).Granted? ==>
      (r.Success? <==>
        && (forall i :: 0 <= i < |regions| ==>
              !cloud.describeZones(RoleReplyFor(accountId, roleName, cloud).credentials, regions[i]).ZoneFault?)
        && (|regions| == 0 ||
            cloud.describeZones(RoleReplyFor(accountId, roleName, cloud).credentials, regions[0]).Described?))
    ensures r.Success? ==> r.value.accountId == accountId
    ensures r.Success? ==> r.value.zones.Keys == set x | x in regions
    ensures r.Success? ==> forall x :: x in r.value.zones ==> |r.value.zones[x]| == 1
  {
    var credentials :- AssumeRole(accountId, roleName, cloud);
    var p :- CollectRegions(regions, region => cloud.describeZones(credentials, region));
    Success(AccountMap(accountId, p.zones))
  }

  /** The entry a region's own query should give: its zones, or nothing when it raised. */
  function IsolatedEntry(reply: ZoneReply): seq<ZoneDict> {
    if reply.Described? then [ZoneDictOf(reply.zones)] else []
  }

  /**
    The region loop with a caught `ClientError` leaving its region empty. An
    uncaught exception still aborts it. On completion every requested region is a
    key, and each entry depends on that region's own query only.
   */
  function CollectIsolated(regions: seq<string>, describe: string -> ZoneReply): (r: Result<map<string, seq<ZoneDict>>, RunError>)
    ensures r.Success? <==> NoFault(regions, describe)
    ensures r.Success? ==> r.value.Keys == set x | x in regions
    ensures r.Success? ==> forall x :: x in r.value ==> r.value[x] == IsolatedEntry(describe(x))
  {
    if |regions| == 0 then Success(map[])
    else
      var init, last := regions[..|regions| - 1], regions[|regions| - 1];
      assert regions == init + [last];
      assert NoFault(regions, describe) <==> NoFault(init, describe) && !describe(last).ZoneFault?;
      var zones :- CollectIsolated(init, describe);
      if describe(last).ZoneFault? then Failure(ZoneQueryAborted(last, describe(last).message))
      else Success(zones[last := IsolatedEntry(describe(last))])
  }

  /**
    `az_map_account` with the isolated region loop: it fails only on a role
    refusal or an uncaught zone-query exception.
   */
  function MapAccountIsolated(accountId: string, roleName: string, regions: seq<string>, cloud: Cloud): (r: Result<AccountMap, RunError>)
    ensures r.Success? <==>
      && RoleReplyFor(accountId, roleName, cloud).Granted?
      && forall i :: 0 <= i < |regions| ==>
           !cloud.describeZones(RoleReplyFor(accountId, roleName, cloud).credentials, regions[i]).ZoneFault?
    ensures r.Success? ==> r.value.accountId == accountId
    ensures r.Success? ==> r.value.zones.Keys == set x | x in regions
    ensures r.Success? ==> forall x :: x in r.value.zones ==>
      r.value.zones[x] ==
        IsolatedEntry(cloud.describeZones(RoleReplyFor(accountId, roleName, cloud).credentials, x))
  {
    var credentials :- AssumeRole(accountId, roleName, cloud);
    var zones :- CollectIsolated(regions, region => cloud.describeZones(credentials, region));
    Success(AccountMap(accountId, zones))
  }
}
