/** `aws_org_accounts`: follow the organization listing's `NextToken` chain. */
module Listing {
  import opened Outcomes
  import opened Provider

  /** The page size every `list_accounts` call asks for. */
  const MaxResults: nat := 20

  /** A reply after which the loop asks for another page. */
  predicate Continues(reply: ListReply) {
    reply.Listed? && reply.page.nextToken.Some?
  }

  /** The accounts of every listed page among `replies`, concatenated in order. */
  function Gathered(replies: seq<ListReply>): seq<Account> {
    if |replies| == 0 then []
    else (if replies[0].Listed? then replies[0].page.accounts else []) + Gathered(replies[1..])
  }

  /** Number of leading replies that announce a further page: the last reply read is the next one. */
  function FirstStop(replies: seq<ListReply>): (k: nat)
    ensures k <= |replies|
    ensures forall i :: 0 <= i < k ==> Continues(replies[i])
    ensures k < |replies| ==> !Continues(replies[k])
  {
    if |replies| == 0 || !Continues(replies[0]) then 0 else 1 + FirstStop(replies[1..])
  }

  /**
    The loop of `aws_org_accounts`, read on the provider's successive replies:
    the first page is always read, each further page is read only while the
    previous one carried a `NextToken`, and a raised error propagates.
   */
  function ListAccounts(replies: seq<ListReply>): (r: Result<seq<Account>, RunError>)
    ensures r.Success? <==> FirstStop(replies) < |replies| && replies[FirstStop(replies)].Listed?
    ensures r == Failure(RepliesExhausted) <==> FirstStop(replies) == |replies|
  {
    if |replies| == 0 then Failure(RepliesExhausted)
    else match replies[0]
      case ListError(m) => Failure(ListingFailed(m))
      case Listed(p) =>
        if p.nextToken.None? then Success(p.accounts)
        else
          var rest :- ListAccounts(replies[1..]);
          Success(p.accounts + rest)
  }

  /**
    The listing is decided by the first reply that does not announce a further
    page: a final page yields every account of the pages read up to it, in order;
    an error yields that error; no such reply means the provider never stopped.
   */
  lemma {:induction false} ListAccountsStopsAtFirstStop(replies: seq<ListReply>)
    ensures var k := FirstStop(replies);
      ListAccounts(replies) ==
        if k == |replies| then Failure(RepliesExhausted)
        else if replies[k].ListError? then Failure(ListingFailed(replies[k].message))
        else Success(Gathered(replies[..k + 1]))
  {
    if |replies| > 0 && Continues(replies[0]) {
      var k := FirstStop(replies);
      ListAccountsStopsAtFirstStop(replies[1..]);
      if k < |replies| {
        assert replies[..k + 1][1..] == replies[1..][..k];
      }
    } else if |replies| > 0 {
      assert replies[..1][1..] == [];
      if replies[0].Listed? {
        assert Gathered(replies[..1]) == replies[0].page.accounts + Gathered([]);
        assert replies[0].page.accounts + [] == replies[0].page.accounts;
      }
    }
  }

  /** Replies after the one that ends the listing are never read. */
  lemma {:induction false} ListAccountsIgnoresLaterReplies(replies: seq<ListReply>, later: seq<ListReply>)
    requires FirstStop(replies) < |replies|
    ensures ListAccounts(replies + later) == ListAccounts(replies)
  {
    if Continues(replies[0]) {
      assert (replies + later)[1..] == replies[1..] + later;
      ListAccountsIgnoresLaterReplies(replies[1..], later);
    }
  }

  /**
    The loop of `aws_org_accounts` as written, also returning the requests it issues:
    request 0 carries no token and request i + 1 carries the token of reply i.
   */
  method ListOrgAccounts(replies: seq<ListReply>) returns (r: Result<seq<Account>, RunError>, requests: seq<ListRequest>)
    ensures r == ListAccounts(replies)
    ensures |requests| == FirstStop(replies) + 1
    ensures forall i :: 0 <= i < |requests| ==> requests[i].maxResults == MaxResults
    ensures requests[0].nextToken.None?
    ensures forall i :: 0 < i < |requests| ==> requests[i].nextToken == replies[i - 1].page.nextToken
  {
    ListAccountsStopsAtFirstStop(replies);
    var accounts: seq<Account> := [];
    var token: Option<string> := None;
    var i := 0;
    requests := [];
    while true
      invariant 0 <= i <= FirstStop(replies)
      invariant |requests| == i
      invariant accounts == Gathered(replies[..i])
      invariant i == 0 ==> token.None?
      invariant i > 0 ==> token == replies[i - 1].page.nextToken
      invariant forall j :: 0 <= j < i ==> requests[j].maxResults == MaxResults
      invariant i > 0 ==> requests[0].nextToken.None?
      invariant forall j :: 0 < j < i ==> requests[j].nextToken == replies[j - 1].page.nextToken
      decreases |replies| - i
    {
      requests := requests + [ListRequest(MaxResults, token)];
      if i == |replies| {
        return Failure(RepliesExhausted), requests;
      }
      GatheredSnoc(replies, i);
      match replies[i]
      case ListError(m) =>
        return Failure(ListingFailed(m)), requests;
      case Listed(p) =>
        accounts := accounts + p.accounts;
        if p.nextToken.None? {
          return Success(accounts), requests;
        }
        token := p.nextToken;
        i := i + 1;
    }
  }

  /** Reading one more reply appends its page's accounts. */
  lemma {:induction false} GatheredSnoc(replies: seq<ListReply>, i: nat)
    requires i < |replies|
    ensures Gathered(replies[..i + 1]) ==
      Gathered(replies[..i]) + (if replies[i].Listed? then replies[i].page.accounts else [])
  {
    if i > 0 {
      GatheredSnoc(replies[1..], i - 1);
      assert replies[..i + 1][1..] == replies[1..][..i];
      assert replies[..i][1..] == replies[1..][..i - 1];
    } else {
      assert replies[..1][1..] == [];
    }
  }
}
