/** The ranking of providers and the pick of the first. */
module SelectProvider {
  import opened RegistryModel
  import RegistryRuns

  /** Cheapest first, then most jobs completed. */
  predicate Less(a: Provider, b: Provider) {
    if a.pricePerHour != b.pricePerHour then a.pricePerHour < b.pricePerHour
    else a.jobsCompleted > b.jobsCompleted
  }

  /** What the sort needs of its comparator: a strict order whose ties are transitive. */
  lemma LessIsStrictWeak(a: Provider, b: Provider, c: Provider)
    ensures !Less(a, a)
    ensures Less(a, b) && Less(b, c) ==> Less(a, c)
    ensures !Less(a, b) && !Less(b, c) ==> !Less(a, c)
  {
  }

  ghost predicate Sorted(s: seq<Provider>) {
    forall i, j :: 0 <= i < j < |s| ==> !Less(s[j], s[i])
  }

  method Swap(a: array<Provider>, i: nat, j: nat)
    requires i < a.Length && j < a.Length
    modifies a
    ensures a[..] == old(a[..])[i := old(a[j])][j := old(a[i])]
    ensures multiset(a[..]) == old(multiset(a[..]))
  {
    a[i], a[j] := a[j], a[i];
  }

  /** `sort.Slice` in place: a permutation in comparator order. */
  method SortSlice(a: array<Provider>)
    modifies a
    ensures Sorted(a[..]) && multiset(a[..]) == old(multiset(a[..]))
  {
    for n := 0 to a.Length
      invariant Sorted(a[..n])
      invariant multiset(a[..]) == old(multiset(a[..]))
    {
      var j := n;
      while j > 0 && Less(a[j], a[j - 1])
        invariant 0 <= j <= n
        invariant multiset(a[..]) == old(multiset(a[..]))
        invariant forall x, y :: 0 <= x < y <= n && y != j ==> !Less(a[y], a[x])
      {
        Swap(a, j, j - 1);
        j := j - 1;
      }
    }
    assert a[..a.Length] == a[..];
  }

  datatype Selection = NoProvider | Selected(provider: Provider)

  /** No listed provider is cheaper, and none as cheap has done more jobs. */
  ghost predicate Best(p: Provider, listed: seq<Provider>) {
    && p in listed
    && forall q :: q in listed ==>
         p.pricePerHour <= q.pricePerHour
         && (p.pricePerHour == q.pricePerHour ==> q.jobsCompleted <= p.jobsCompleted)
  }

  /** `SelectProvider`: an error without providers, otherwise the head of the sorted slice. */
  method Select(providers: array<Provider>) returns (r: Selection)
    modifies providers
    ensures r == NoProvider <==> providers.Length == 0
    ensures r.Selected? ==> Best(r.provider, old(providers[..]))
    ensures multiset(providers[..]) == old(multiset(providers[..]))
  {
    if providers.Length == 0 { return NoProvider; }
    SortSlice(providers);
    HeadIsBest(providers[..], old(providers[..]));
    return Selected(providers[0]);
  }

  /** Whatever permutation a sort leaves, its head is a best provider. */
  lemma HeadIsBest(sorted: seq<Provider>, listed: seq<Provider>)
    requires Sorted(sorted) && multiset(sorted) == multiset(listed) && sorted != []
    ensures Best(sorted[0], listed)
  {
    assert sorted[0] in multiset(sorted);
    forall q | q in listed
      ensures sorted[0].pricePerHour <= q.pricePerHour
              && (sorted[0].pricePerHour == q.pricePerHour ==> q.jobsCompleted <= sorted[0].jobsCompleted)
    {
      assert q in multiset(sorted);
      var i :| 0 <= i < |sorted| && sorted[i] == q;
      assert i > 0 ==> !Less(sorted[i], sorted[0]);
    }
  }

  /** Over a reachable registry the pick is a registered active provider with the minimum stake that no other
      active provider undercuts. */
  lemma PickFromRegistry(s: State, p: Provider)
    requires RegistryRuns.Inv(s) && Best(p, ActiveProviders(s, s.providerList))
    ensures p.wallet in s.providers && p == s.providers[p.wallet] && p.active && p.stakedAmount >= MIN_STAKE
    ensures forall a :: a in s.providers && s.providers[a].active ==>
              p.pricePerHour <= s.providers[a].pricePerHour
              && (p.pricePerHour == s.providers[a].pricePerHour ==> s.providers[a].jobsCompleted <= p.jobsCompleted)
  {
    var listed := ActiveProviders(s, s.providerList);
    var i :| 0 <= i < |listed| && listed[i] == p;
    RegistryRuns.EnumeratesListed(s, s.providerList, i);
    forall a | a in s.providers && s.providers[a].active
      ensures s.providers[a] in listed
    {
      RegistryRuns.EnumeratesActive(s, s.providerList, a);
      var k :| 0 <= k < |listed| && listed[k].wallet == a;
      RegistryRuns.EnumeratesListed(s, s.providerList, k);
      assert listed[k] == s.providers[a];
    }
  }
}
