/** `main`: list, select, map every selected account, and hand over the document. */
module Pipeline {
  import opened Outcomes
  import opened Provider
  import opened Listing
  import opened Selection
  import opened Roles
  import opened ZoneMap

  /** The final document: `{"Accounts": [...]}`. */
  datatype Document = Document(accounts: seq<AccountMap>)

  /** How a run ends: exit at a prompt, abort on a propagated error, or a written document. */
  datatype RunOutcome = Exited | Aborted(error: RunError) | Written(document: Document)

  /**
    The account loop of `main` with `mapAccount` mapping one account: accounts are
    mapped in order, each result appended, and the first failure aborts the loop.
   */
  function AggregateWith(accounts: seq<string>, mapAccount: string -> Result<AccountMap, RunError>): (r: Result<seq<AccountMap>, RunError>)
    ensures r.Success? <==> forall i :: 0 <= i < |accounts| ==> mapAccount(accounts[i]).Success?
    ensures r.Success? ==> |r.value| == |accounts|
    ensures r.Success? ==> forall i :: 0 <= i < |accounts| ==> mapAccount(accounts[i]) == Success(r.value[i])
  {
    if |accounts| == 0 then Success([])
    else
      var first :- mapAccount(accounts[0]);
      var rest :- AggregateWith(accounts[1..], mapAccount);
      assert forall i :: 0 < i < |accounts| ==> accounts[i] == accounts[1..][i - 1];
      Success([first] + rest)
  }

  /** The loop aborts with the error of the first account that fails; later accounts are not mapped. */
  lemma {:induction false} AggregateAbortsAtFirstFailure(accounts: seq<string>, mapAccount: string -> Result<AccountMap, RunError>, k: nat)
    requires k < |accounts|
    requires forall j :: 0 <= j < k ==> mapAccount(accounts[j]).Success?
    requires mapAccount(accounts[k]).Failure?
    ensures AggregateWith(accounts, mapAccount) == Failure(mapAccount(accounts[k]).error)
  {
    if k > 0 {
      assert forall j :: 0 <= j < k - 1 ==> accounts[1..][j] == accounts[j + 1];
      AggregateAbortsAtFirstFailure(accounts[1..], mapAccount, k - 1);
    }
  }

  /**
    `main`'s account loop with `az_map_account` as written: it completes exactly
    when every account maps, and then entry i belongs to account i.
   */
  function Aggregate(accounts: seq<string>, regions: seq<string>, roleName: string, cloud: Cloud): (r: Result<seq<AccountMap>, RunError>)
    ensures r.Success? <==> forall i :: 0 <= i < |accounts| ==> MapAccount(accounts[i], roleName, regions, cloud).Success?
    ensures r.Success? ==> |r.value| == |accounts|
    ensures r.Success? ==> forall i :: 0 <= i < |accounts| ==> r.value[i].accountId == accounts[i]
  {
    AggregateWith(accounts, account => MapAccount(account, roleName, regions, cloud))
  }

  /**
    A completed aggregation holds one map per selected account, in order; entry i
    belongs to account i and has one single-dict entry per requested region.
   */
  lemma AggregateShape(accounts: seq<string>, regions: seq<string>, roleName: string, cloud: Cloud)
    requires Aggregate(accounts, regions, roleName, cloud).Success?
    ensures var maps := Aggregate(accounts, regions, roleName, cloud).value;
      && |maps| == |accounts|
      && (forall i :: 0 <= i < |maps| ==> maps[i].accountId == accounts[i])
      && (forall i :: 0 <= i < |maps| ==> maps[i].zones.Keys == set x | x in regions)
      && (forall i, x :: 0 <= i < |maps| && x in maps[i].zones ==> |maps[i].zones[x]| == 1)
  {
  }

  /** A role refusal for any selected account, with every earlier account mapped, aborts the loop with that refusal. */
  lemma RoleRefusalAbortsAggregate(accounts: seq<string>, regions: seq<string>, roleName: string, cloud: Cloud, k: nat)
    requires k < |accounts|
    requires forall j :: 0 <= j < k ==> MapAccount(accounts[j], roleName, regions, cloud).Success?
    requires RoleReplyFor(accounts[k], roleName, cloud).Refused?
    ensures Aggregate(accounts, regions, roleName, cloud) ==
      Failure(RoleRefused(RoleReplyFor(accounts[k], roleName, cloud).message))
  {
    AggregateAbortsAtFirstFailure(accounts, account => MapAccount(account, roleName, regions, cloud), k);
  }

  /**
    `main`'s account loop with the isolated region loop: only role refusals and
    uncaught zone-query exceptions abort it; a caught `ClientError` never does.
   */
  function AggregateIsolated(accounts: seq<string>, regions: seq<string>, roleName: string, cloud: Cloud): (r: Result<seq<AccountMap>, RunError>)
    ensures r.Success? <==> forall i :: 0 <= i < |accounts| ==>
      && RoleReplyFor(accounts[i], roleName, cloud).Granted?
      && forall j :: 0 <= j < |regions| ==>
           !cloud.describeZones(RoleReplyFor(accounts[i], roleName, cloud).credentials, regions[j]).ZoneFault?
    ensures r.Success? ==> |r.value| == |accounts|
    ensures r.Success? ==> forall i :: 0 <= i < |accounts| ==>
      r.value[i].accountId == accounts[i] && r.value[i].zones.Keys == set x | x in regions
  {
    AggregateWith(accounts, account => MapAccountIsolated(account, roleName, regions, cloud))
  }

  /**
    `main` end to end. The listing runs first (its error aborts), then the account
    prompt (exit on an empty selection), then the region prompt (same), then the
    account loop; a document is written exactly when every account was mapped, and
    a failed account aborts the run with its error.
   */
  function Run(replies: seq<ListReply>, tickedAccounts: seq<string>, tickedRegions: seq<string>, roleName: string, cloud: Cloud): (o: RunOutcome)
    ensures ListAccounts(replies).Failure? ==> o == Aborted(ListAccounts(replies).error)
    ensures o.Written? ==>
      && ListAccounts(replies).Success?
      && ResolveAccounts(ListAccounts(replies).value, tickedAccounts).Proceed?
      && |tickedRegions| > 0
      && Aggregate(ResolveAccounts(ListAccounts(replies).value, tickedAccounts).chosen, tickedRegions, roleName, cloud)
           == Success(o.document.accounts)
    ensures o.Exited? <==>
      && ListAccounts(replies).Success?
      && (ResolveAccounts(ListAccounts(replies).value, tickedAccounts).Exit? || |tickedRegions| == 0)
    ensures (ListAccounts(replies).Success? && ResolveAccounts(ListAccounts(replies).value, tickedAccounts).Proceed?
      && |tickedRegions| > 0) ==>
        var loop := Aggregate(ResolveAccounts(ListAccounts(replies).value, tickedAccounts).chosen, tickedRegions, roleName, cloud);
        o == if loop.Success? then Written(Document(loop.value)) else Aborted(loop.error)
  {
    match ListAccounts(replies)
    case Failure(e) => Aborted(e)
    case Success(org) =>
      match ResolveAccounts(org, tickedAccounts)
      case Exit => Exited
      case Proceed(accounts) =>
        match ResolveRegions(tickedRegions)
        case Exit => Exited
        case Proceed(regions) =>
          match Aggregate(accounts, regions, roleName, cloud)
          case Failure(e) => Aborted(e)
          case Success(maps) => Written(Document(maps))
  }

  /**
    A written document maps exactly the selected accounts, in selection order,
    over exactly the selected regions.
   */
  lemma RunWrittenDocument(replies: seq<ListReply>, tickedAccounts: seq<string>, tickedRegions: seq<string>, roleName: string, cloud: Cloud)
    requires Run(replies, tickedAccounts, tickedRegions, roleName, cloud).Written?
    ensures var doc := Run(replies, tickedAccounts, tickedRegions, roleName, cloud).document;
      var chosen := ResolveAccounts(ListAccounts(replies).value, tickedAccounts).chosen;
      && |doc.accounts| == |chosen|
      && (forall i :: 0 <= i < |chosen| ==> doc.accounts[i].accountId == chosen[i])
      && (forall i :: 0 <= i < |chosen| ==> doc.accounts[i].zones.Keys == set x | x in tickedRegions)
  {
  }

  /**
    Once the listing and both prompts let the run go on, the first chosen account
    that fails to map aborts the run with its error, and no document is written.
   */
  lemma RunAbortsOnAccountFailure(replies: seq<ListReply>, tickedAccounts: seq<string>, tickedRegions: seq<string>, roleName: string, cloud: Cloud, k: nat)
    requires ListAccounts(replies).Success?
    requires ResolveAccounts(ListAccounts(replies).value, tickedAccounts).Proceed?
    requires |tickedRegions| > 0
    requires var chosen := ResolveAccounts(ListAccounts(replies).value, tickedAccounts).chosen;
      && k < |chosen|
      && (forall j :: 0 <= j < k ==> MapAccount(chosen[j], roleName, tickedRegions, cloud).Success?)
      && MapAccount(chosen[k], roleName, tickedRegions, cloud).Failure?
    ensures var chosen := ResolveAccounts(ListAccounts(replies).value, tickedAccounts).chosen;
      Run(replies, tickedAccounts, tickedRegions, roleName, cloud) ==
        Aborted(MapAccount(chosen[k], roleName, tickedRegions, cloud).error)
  {
    var chosen := ResolveAccounts(ListAccounts(replies).value, tickedAccounts).chosen;
    AggregateAbortsAtFirstFailure(chosen, account => MapAccount(account, roleName, tickedRegions, cloud), k);
  }

  /** A refused role for any chosen account means the run writes nothing. */
  lemma RoleRefusalWritesNothing(replies: seq<ListReply>, tickedAccounts: seq<string>, tickedRegions: seq<string>, roleName: string, cloud: Cloud, account: string)
    requires ListAccounts(replies).Success?
    requires ResolveAccounts(ListAccounts(replies).value, tickedAccounts).Proceed?
    requires account in ResolveAccounts(ListAccounts(replies).value, tickedAccounts).chosen
    requires RoleReplyFor(account, roleName, cloud).Refused?
    ensures !Run(replies, tickedAccounts, tickedRegions, roleName, cloud).Written?
  {
  }

  /** Ticking "all" in an organization whose listing is empty writes a document with no accounts instead of exiting. */
  lemma AllOfEmptyOrganization(roleName: string, cloud: Cloud)
    ensures Run([Listed(Page([], None))], [AllChoice], ["us-east-1"], roleName, cloud) == Written(Document([]))
  {
  }

  /** The credentials every example role assumption grants. */
  const ExampleCredentials := Credentials("ASIAEXAMPLE", "secret", "token")

  /** A cloud in which every role is granted and us-east-1 answers with one zone. */
  function ExampleCloud(): Cloud {
    Cloud(
      request => Granted(ExampleCredentials),
      (credentials, region) =>
        if region == "us-east-1" then Described([Zone("us-east-1a", "use1-az1")])
        else ZoneError("UnauthorizedOperation"))
  }

  /** One account, one region that answers: the document maps that account's zone. */
  lemma EndToEndExample()
    ensures Run([Listed(Page([Account("111111111111")], None))], ["111111111111"], ["us-east-1"], "OpsRole", ExampleCloud())
      == Written(Document([AccountMap("111111111111", map["us-east-1" := [map["us-east-1a" := "use1-az1"]]])]))
  {
  }

  /** One account whose only region's query raises: the run aborts and nothing is written. */
  lemma EndToEndZoneFailure()
    ensures Run([Listed(Page([Account("111111111111")], None))], ["111111111111"], ["eu-west-1"], "OpsRole", ExampleCloud())
      == Aborted(ResponseUnbound("eu-west-1"))
  {
  }
}
