/** The decision part of `aws_accounts_prompt` and `aws_regions_prompt`. */
module Selection {
  import opened Seqs
  import opened Provider

  /** The extra choice offered ahead of the organization's account ids. */
  const AllChoice: string := "all"

  /** What a prompt leads to: exiting the process, or mapping the chosen items. */
  datatype Decision = Exit | Proceed(chosen: seq<string>)

  /** The `Id` of every listed account, in listing order. */
  function Ids(org: seq<Account>): seq<string> {
    seq(|org|, i requires 0 <= i < |org| => org[i].id)
  }

  /** The checkbox choices: "all" followed by the account ids. */
  function Choices(org: seq<Account>): (c: seq<string>)
    ensures |c| == |org| + 1 && c[0] == AllChoice && c[1..] == Ids(org)
  {
    [AllChoice] + Ids(org)
  }

  /** Python's `list.remove`: the list without the first occurrence of `x`, otherwise in order. */
  function RemoveFirst(s: seq<string>, x: string): (r: seq<string>)
    requires x in s
    ensures exists i :: 0 <= i < |s| && s[i] == x && x !in s[..i] && r == s[..i] + s[i + 1..]
    ensures |r| == |s| - 1
    ensures multiset(r) + multiset{x} == multiset(s)
    ensures s[0] == x ==> r == s[1..]
  {
    var i := FirstIndex(s, x);
    assert s == s[..i] + [x] + s[i + 1..];
    assert s[0] == x ==> i == 0;
    s[..i] + s[i + 1..]
  }

  /**
    The accounts to map given the ticked choices: "all" anywhere means every
    organization account in listing order, nothing ticked means exit, and any
    other selection is kept as ticked.
   */
  function ResolveAccounts(org: seq<Account>, ticked: seq<string>): (d: Decision)
    ensures AllChoice in ticked ==> d == Proceed(Ids(org))
    ensures AllChoice !in ticked ==> (d.Exit? <==> |ticked| == 0)
    ensures AllChoice !in ticked && d.Proceed? ==> d.chosen == ticked
    ensures d.Proceed? && (forall t :: t in ticked ==> t in Choices(org)) ==>
      forall a :: a in d.chosen ==> a in Ids(org)
  {
    if AllChoice in ticked then Proceed(RemoveFirst(Choices(org), AllChoice))
    else if |ticked| == 0 then Exit
    else Proceed(ticked)
  }

  /** The regions to map: an empty selection means exit. */
  function ResolveRegions(ticked: seq<string>): (d: Decision)
    ensures d.Exit? <==> |ticked| == 0
    ensures d.Proceed? ==> d.chosen == ticked
  {
    if |ticked| == 0 then Exit else Proceed(ticked)
  }
}
