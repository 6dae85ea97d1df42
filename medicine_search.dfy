/** Layer 3 of the pipeline: one product search per recommended medicine, the
    first results of each kept when they are rated, all of them collected in
    medicine order. The search backend is a parameter: what the request for a
    medicine name gave. */
module MedicineSearch {
  import opened Options
  import opened Seqs
  import opened Json
  import opened Products

  /** A kept search result, tagged with the medicine it was found for. */
  datatype Hit = Hit(product: Product, medicine: Json)

  /** The dict search_medicines_on_amazon returns: "success" with the count
      and the hits, or "error" with the message (and no results). */
  datatype SearchOutcome =
    | SearchSucceeded(totalResults: int, hits: seq<Hit>)
    | SearchFailed(message: string)
  {
    /** The dict's `results`: empty for an error. */
    function Results(): seq<Hit> {
      if SearchSucceeded? then hits else []
    }
  }

  const SearchFailedLead := "Search failed: "

  /** The rated records among raw results, rebuilt with their defaults and
      tagged with the medicine, in order. */
  function RatedHits(medicine: Json, raws: seq<RawResult>): (hs: seq<Hit>)
    ensures |hs| <= |raws|
    ensures forall k :: 0 <= k < |hs| ==> Rated(hs[k].product) && hs[k].medicine == medicine
  {
    if raws == [] then []
    else
      var p := FromRaw(raws[|raws| - 1]);
      RatedHits(medicine, raws[..|raws| - 1]) + (if Rated(p) then [Hit(p, medicine)] else [])
  }

  /** What one medicine's response adds: the rated records among its first
      max_results organic results; nothing when the key is absent. */
  function HitsFor(medicine: Json, body: SearchBody, maxResults: int): seq<Hit> {
    match body.organicResults
    case None => []
    case Some(raws) => RatedHits(medicine, Take(raws, maxResults))
  }

  predicate AllFetched(medicines: seq<Json>, api: Json -> Fetch) {
    forall i :: 0 <= i < |medicines| ==> api(medicines[i]).Fetched?
  }

  /** The hits of the medicines, in medicine order, when every search
      returned a body. */
  function Collected(medicines: seq<Json>, api: Json -> Fetch, maxResults: int): seq<Hit>
    requires AllFetched(medicines, api)
  {
    if medicines == [] then []
    else
      var last := medicines[|medicines| - 1];
      Collected(medicines[..|medicines| - 1], api, maxResults) + HitsFor(last, api(last).body, maxResults)
  }

  /** The first medicine whose search raised. */
  function FirstFailure(medicines: seq<Json>, api: Json -> Fetch): (i: nat)
    requires !AllFetched(medicines, api)
    ensures i < |medicines| && !api(medicines[i]).Fetched?
    ensures forall k :: 0 <= k < i ==> api(medicines[k]).Fetched?
  {
    if !api(medicines[0]).Fetched? then 0 else 1 + FirstFailure(medicines[1..], api)
  }

  /** search_medicines_on_amazon as a value: every hit when all searches
      succeed, otherwise the error of the first search that raised (the hits
      gathered before it are dropped). */
  function Searched(medicines: seq<Json>, api: Json -> Fetch, maxResults: int): SearchOutcome {
    if AllFetched(medicines, api) then
      var hits := Collected(medicines, api, maxResults);
      SearchSucceeded(|hits|, hits)
    else
      SearchFailed(SearchFailedLead + api(medicines[FirstFailure(medicines, api)]).reason)
  }

  lemma RatedHitsStep(medicine: Json, raws: seq<RawResult>, j: nat)
    requires j < |raws|
    ensures RatedHits(medicine, raws[..j + 1]) == RatedHits(medicine, raws[..j]) +
      (if Rated(FromRaw(raws[j])) then [Hit(FromRaw(raws[j]), medicine)] else [])
  {
    assert raws[..j + 1][..j] == raws[..j];
  }

  lemma CollectedStep(medicines: seq<Json>, api: Json -> Fetch, maxResults: int, i: nat)
    requires i < |medicines| && AllFetched(medicines[..i + 1], api)
    ensures AllFetched(medicines[..i], api)
    ensures Collected(medicines[..i + 1], api, maxResults) ==
      Collected(medicines[..i], api, maxResults) + HitsFor(medicines[i], api(medicines[i]).body, maxResults)
  {
    assert medicines[..i + 1][..i] == medicines[..i];
    assert forall k :: 0 <= k < i ==> medicines[..i][k] == medicines[..i + 1][k];
  }

  lemma AllFetchedExtend(medicines: seq<Json>, api: Json -> Fetch, i: nat)
    requires i < |medicines| && AllFetched(medicines[..i], api) && api(medicines[i]).Fetched?
    ensures AllFetched(medicines[..i + 1], api)
  {
    assert forall k :: 0 <= k < i ==> medicines[..i][k] == medicines[k];
    assert forall k :: 0 <= k < i + 1 ==> medicines[..i + 1][k] == medicines[k];
  }

  lemma AllFetchedPrefix(medicines: seq<Json>, api: Json -> Fetch, n: nat)
    requires n <= |medicines| && AllFetched(medicines, api)
    ensures AllFetched(medicines[..n], api)
  {
    assert forall k :: 0 <= k < n ==> medicines[..n][k] == medicines[k];
  }

  lemma AllFetchedParts(a: seq<Json>, b: seq<Json>, api: Json -> Fetch)
    requires AllFetched(a + b, api)
    ensures AllFetched(a, api) && AllFetched(b, api)
  {
    assert forall k :: 0 <= k < |a| ==> a[k] == (a + b)[k];
    assert forall k :: 0 <= k < |b| ==> b[k] == (a + b)[|a| + k];
  }

  /** The loop over one response's first results. */
  method KeepRated(medicine: Json, raws: seq<RawResult>) returns (kept: seq<Hit>)
    ensures kept == RatedHits(medicine, raws)
  {
    kept := [];
    for j := 0 to |raws|
      invariant kept == RatedHits(medicine, raws[..j])
    {
      var processed := FromRaw(raws[j]);
      RatedHitsStep(medicine, raws, j);
      if processed.rating.value > 0 && processed.reviews > 0 {
        kept := kept + [Hit(processed, medicine)];
      }
    }
    WholeSlice(raws);
  }

  /** search_medicines_on_amazon: for each medicine, search, and extend the
      hits with the rated ones among the first max_results results; the first
      search that raises ends the call with an error. */
  method SearchMedicines(medicines: seq<Json>, api: Json -> Fetch, maxResults: int) returns (outcome: SearchOutcome)
    ensures outcome == Searched(medicines, api, maxResults)
  {
    var all: seq<Hit> := [];
    for i := 0 to |medicines|
      invariant AllFetched(medicines[..i], api)
      invariant all == Collected(medicines[..i], api, maxResults)
    {
      var medicine := medicines[i];
      var response := api(medicine);
      if !response.Fetched? {
        assert forall k :: 0 <= k < i ==> api(medicines[k]).Fetched? by {
          forall k | 0 <= k < i ensures api(medicines[k]).Fetched? {
            assert medicines[..i][k] == medicines[k];
          }
        }
        return SearchFailed(SearchFailedLead + response.reason);
      }
      AllFetchedExtend(medicines, api, i);
      CollectedStep(medicines, api, maxResults, i);
      if response.body.organicResults.Some? {
        var kept := KeepRated(medicine, Take(response.body.organicResults.value, maxResults));
        all := all + kept;
      }
    }
    WholeSlice(medicines);
    outcome := SearchSucceeded(|all|, all);
  }

  // ----------------------------------------------------------- properties

  /** One medicine adds at most max_results hits (for a non-negative limit),
      each rated and tagged with that medicine. */
  lemma HitsForBounded(medicine: Json, body: SearchBody, maxResults: int)
    ensures maxResults >= 0 ==> |HitsFor(medicine, body, maxResults)| <= maxResults
    ensures forall h :: h in HitsFor(medicine, body, maxResults) ==> Rated(h.product) && h.medicine == medicine
  {
  }

  /** Searching a list of medicines is searching its two halves one after the
      other: the hits are in medicine order. */
  lemma {:induction false} CollectedAppend(a: seq<Json>, b: seq<Json>, api: Json -> Fetch, maxResults: int)
    requires AllFetched(a + b, api)
    ensures AllFetched(a, api) && AllFetched(b, api)
    ensures Collected(a + b, api, maxResults) == Collected(a, api, maxResults) + Collected(b, api, maxResults)
    decreases |b|
  {
    AllFetchedParts(a, b, api);
    if b == [] {
      assert a + b == a;
    } else {
      var ab := a + b;
      var init := b[..|b| - 1];
      assert ab[..|ab| - 1] == a + init;
      assert ab[|ab| - 1] == b[|b| - 1];
      AllFetchedPrefix(ab, api, |ab| - 1);
      CollectedAppend(a, init, api, maxResults);
    }
  }

  /** Every hit is rated and was found for one of the medicines. */
  lemma {:induction false} CollectedHits(medicines: seq<Json>, api: Json -> Fetch, maxResults: int)
    requires AllFetched(medicines, api)
    ensures forall h :: h in Collected(medicines, api, maxResults) ==> Rated(h.product) && h.medicine in medicines
  {
    if medicines != [] {
      var init := medicines[..|medicines| - 1];
      var last := medicines[|medicines| - 1];
      assert forall k :: 0 <= k < |init| ==> init[k] == medicines[k];
      CollectedHits(init, api, maxResults);
      HitsForBounded(last, api(last).body, maxResults);
      assert forall m :: m in init ==> m in medicines;
    }
  }

  lemma MultiplySucc(n: nat, m: int)
    ensures (n + 1) * m == n * m + m
  {
  }

  /** With a non-negative limit, no more than max_results hits per medicine. */
  lemma {:induction false} CollectedBounded(medicines: seq<Json>, api: Json -> Fetch, maxResults: int)
    requires AllFetched(medicines, api) && maxResults >= 0
    ensures |Collected(medicines, api, maxResults)| <= |medicines| * maxResults
  {
    if medicines != [] {
      var init := medicines[..|medicines| - 1];
      var last := medicines[|medicines| - 1];
      AllFetchedPrefix(medicines, api, |medicines| - 1);
      CollectedBounded(init, api, maxResults);
      HitsForBounded(last, api(last).body, maxResults);
      var n := |init|;
      assert |medicines| == n + 1;
      MultiplySucc(n, maxResults);
    }
  }

  /** The success dict counts its results, each rated and tagged with one of
      the medicines; an error has no results and names the failure of the
      first search that raised. */
  lemma SearchedSpec(medicines: seq<Json>, api: Json -> Fetch, maxResults: int)
    ensures Searched(medicines, api, maxResults).SearchSucceeded? <==> AllFetched(medicines, api)
    ensures match Searched(medicines, api, maxResults)
      case SearchSucceeded(total, hits) =>
        && total == |hits|
        && forall h :: h in hits ==> Rated(h.product) && h.medicine in medicines
      case SearchFailed(message) =>
        exists i :: && 0 <= i < |medicines| && !api(medicines[i]).Fetched?
                    && (forall k :: 0 <= k < i ==> api(medicines[k]).Fetched?)
                    && message == SearchFailedLead + api(medicines[i]).reason
    ensures Searched(medicines, api, maxResults).Results() == [] <==>
      !AllFetched(medicines, api) || Collected(medicines, api, maxResults) == []
  {
    if AllFetched(medicines, api) {
      CollectedHits(medicines, api, maxResults);
    } else {
      var i := FirstFailure(medicines, api);
      assert 0 <= i < |medicines| && !api(medicines[i]).Fetched?;
    }
  }

  /** The first results are taken before the rating filter: with a limit of
      one, an unrated first result hides a rated second one. */
  lemma TruncatesBeforeFilter(medicine: Json, unrated: RawResult, rated: RawResult)
    requires !Rated(FromRaw(unrated)) && Rated(FromRaw(rated))
    ensures HitsFor(medicine, SearchBody(Some([unrated, rated])), 1) == []
    ensures RatedHits(medicine, [unrated, rated]) == [Hit(FromRaw(rated), medicine)]
  {
    var raws := [unrated, rated];
    assert Take(raws, 1) == [unrated];
    assert [unrated][..0] == [];
    assert raws[..1] == [unrated];
  }
}
