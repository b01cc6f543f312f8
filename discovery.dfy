/** Discovery of application inference profiles by tag: the loop that both command files
    share (client_app.py and admin_app.py, `list_application_inference_profiles`). */
module Discovery {
  import opened Wrappers
  import opened TagMaps
  import opened Bedrock

  /** Every filter entry is present in `tags` with an equal value. */
  predicate Matches(filters: Dict, tags: Dict) {
    forall i :: 0 <= i < |filters| ==> Lookup(tags, filters[i].0) == Some(filters[i].1)
  }

  /** Matching is inclusion of dictionaries: each filter key maps to the same value in `tags`. */
  lemma MatchesIffSubDict(filters: Dict, tags: Dict)
    ensures Matches(filters, tags) <==> forall k :: HasKey(filters, k) ==> Lookup(tags, k) == Lookup(filters, k)
  {
    forall i | 0 <= i < |filters| { LookupEntry(filters, i); }
  }

  /** Only the filter's keys decide: two tag maps that agree on every filter key either both
      match or both fail, whatever other tags they carry; so extra tags never disqualify. */
  lemma ExtraTagsNeverDisqualify(filters: Dict, tags: Dict, more: Dict)
    requires forall k :: HasKey(filters, k) ==> Lookup(more, k) == Lookup(tags, k)
    ensures Matches(filters, tags) <==> Matches(filters, more)
  {
    forall i | 0 <= i < |filters| { LookupEntry(filters, i); }
  }

  /** The inner loop: walks the filter in iteration order and stops at the first key that is
      missing from `tags` or maps to a different value. */
  method MatchesFilters(filters: Dict, tags: Dict) returns (matched: bool)
    ensures matched == Matches(filters, tags)
  {
    matched := true;
    var i := 0;
    while i < |filters|
      invariant 0 <= i <= |filters|
      invariant matched
      invariant forall j :: 0 <= j < i ==> Lookup(tags, filters[j].0) == Some(filters[j].1)
    {
      var (key, value) := filters[i];
      if !HasKey(tags, key) || Get(tags, key) != value {
        matched := false;
        break;
      }
      i := i + 1;
    }
  }

  /** The tag map built for a summary from its tag list (empty if the fetch failed). */
  function TagMapOf(tagsOf: Option<string> -> TagResponse, s: Summary): Dict {
    match tagsOf(s.arn)
    case TagsListed(tags) => FromTags(tags)
    case TagsFailed => []
  }

  /** Every tag fetch for the page succeeds. */
  predicate AllFetched(page: seq<Summary>, tagsOf: Option<string> -> TagResponse) {
    forall i :: 0 <= i < |page| ==> tagsOf(page[i].arn).TagsListed?
  }

  /** The profiles the loop appends when every tag fetch succeeds. */
  function Kept(filters: Dict, page: seq<Summary>, tagsOf: Option<string> -> TagResponse): seq<AppProfile> {
    if |page| == 0 then []
    else
      var last := page[|page| - 1];
      var tags := TagMapOf(tagsOf, last);
      Kept(filters, page[..|page| - 1], tagsOf) + if Matches(filters, tags) then [AppProfile(last, tags)] else []
  }

  /** The listing's result: a `ClientError` from any tag fetch leaves the loop and the
      function returns an empty list, discarding what was kept so far. */
  function Discovered(filters: Dict, page: seq<Summary>, tagsOf: Option<string> -> TagResponse): seq<AppProfile> {
    if AllFetched(page, tagsOf) then Kept(filters, page, tagsOf) else []
  }

  /** A listing request for at most `maxResults` summaries, then the loop over the page it
      returns; a `ClientError` from the listing gives an empty result as well. */
  function ListingResult(filters: Dict, response: ListResponse, maxResults: nat, tagsOf: Option<string> -> TagResponse)
    : seq<AppProfile>
  {
    match response
    case ListFailed => []
    case Listed(catalog) => Discovered(filters, FirstPage(catalog, maxResults), tagsOf)
  }

  /** The outer loop over one page of summaries. */
  method FilterByTags(filters: Dict, page: seq<Summary>, tagsOf: Option<string> -> TagResponse)
    returns (profiles: seq<AppProfile>)
    ensures profiles == Discovered(filters, page, tagsOf)
  {
    profiles := [];
    var i := 0;
    while i < |page|
      invariant 0 <= i <= |page|
      invariant AllFetched(page[..i], tagsOf)
      invariant profiles == Kept(filters, page[..i], tagsOf)
    {
      var summary := page[i];
      var fetched, kept := InspectProfile(filters, summary, tagsOf);
      if !fetched {
        FailedFetchDiscardsAll(filters, page, tagsOf, i);
        profiles := [];
        return;
      }
      if kept.Some? {
        profiles := profiles + [kept.value];
      }
      KeptStep(filters, page, tagsOf, i);
      i := i + 1;
    }
    assert page[..i] == page;
  }

  /** The loop body for one summary: fetch its tags, build the tag map, and keep the summary
      with that map when it matches; `fetched` is false when the tag fetch fails. */
  method InspectProfile(filters: Dict, summary: Summary, tagsOf: Option<string> -> TagResponse)
    returns (fetched: bool, kept: Option<AppProfile>)
    ensures fetched == tagsOf(summary.arn).TagsListed?
    ensures fetched ==> (kept.Some? <==> Matches(filters, TagMapOf(tagsOf, summary)))
    ensures kept.Some? ==> fetched && kept.value == AppProfile(summary, TagMapOf(tagsOf, summary))
  {
    var response := tagsOf(summary.arn);
    if response.TagsFailed? {
      return false, None;
    }
    var profileTags := FromTags(response.tags);
    var matched := MatchesFilters(filters, profileTags);
    fetched := true;
    kept := None;
    if matched {
      kept := Some(AppProfile(summary, profileTags));
    }
  }

  /** A failed tag fetch anywhere in the page empties the result. */
  lemma FailedFetchDiscardsAll(filters: Dict, page: seq<Summary>, tagsOf: Option<string> -> TagResponse, i: int)
    requires 0 <= i < |page| && tagsOf(page[i].arn).TagsFailed?
    ensures Discovered(filters, page, tagsOf) == []
  { }

  /** One more summary of the page, fetched without error, extends what is kept by that
      summary when it matches. */
  lemma KeptStep(filters: Dict, page: seq<Summary>, tagsOf: Option<string> -> TagResponse, i: int)
    requires 0 <= i < |page| && AllFetched(page[..i], tagsOf) && tagsOf(page[i].arn).TagsListed?
    ensures AllFetched(page[..i + 1], tagsOf)
    ensures Kept(filters, page[..i + 1], tagsOf) ==
      Kept(filters, page[..i], tagsOf) +
        if Matches(filters, TagMapOf(tagsOf, page[i])) then [AppProfile(page[i], TagMapOf(tagsOf, page[i]))] else []
  {
    assert page[..i + 1][..i] == page[..i];
  }

  /** Positions of the summaries whose tag map matches, in ascending order. */
  function MatchPositions(filters: Dict, page: seq<Summary>, tagsOf: Option<string> -> TagResponse): seq<int> {
    if |page| == 0 then []
    else
      MatchPositions(filters, page[..|page| - 1], tagsOf)
      + if Matches(filters, TagMapOf(tagsOf, page[|page| - 1])) then [|page| - 1] else []
  }

  /** A position is listed iff the summary there matches. */
  lemma {:induction false} MatchPositionsIff(filters: Dict, page: seq<Summary>, tagsOf: Option<string> -> TagResponse, i: int)
    ensures i in MatchPositions(filters, page, tagsOf) <==> 0 <= i < |page| && Matches(filters, TagMapOf(tagsOf, page[i]))
    decreases |page|
  {
    if |page| > 0 {
      var init := page[..|page| - 1];
      var last := page[|page| - 1];
      var extra := if Matches(filters, TagMapOf(tagsOf, last)) then [|page| - 1] else [];
      assert MatchPositions(filters, page, tagsOf) == MatchPositions(filters, init, tagsOf) + extra;
      assert i in MatchPositions(filters, page, tagsOf) <==> i in MatchPositions(filters, init, tagsOf) || i in extra;
      MatchPositionsIff(filters, init, tagsOf, i);
      if 0 <= i < |init| { assert init[i] == page[i]; }
    }
  }

  /** Positions are listed in strictly ascending order, and all lie within the page. */
  lemma {:induction false} MatchPositionsAscending(filters: Dict, page: seq<Summary>, tagsOf: Option<string> -> TagResponse)
    ensures forall j :: 0 <= j < |MatchPositions(filters, page, tagsOf)| ==>
      0 <= MatchPositions(filters, page, tagsOf)[j] < |page|
    ensures forall a, b :: 0 <= a < b < |MatchPositions(filters, page, tagsOf)| ==>
      MatchPositions(filters, page, tagsOf)[a] < MatchPositions(filters, page, tagsOf)[b]
    decreases |page|
  {
    if |page| > 0 {
      var init := page[..|page| - 1];
      MatchPositionsAscending(filters, init, tagsOf);
      var pos0 := MatchPositions(filters, init, tagsOf);
      var pos := MatchPositions(filters, page, tagsOf);
      var extra := if Matches(filters, TagMapOf(tagsOf, page[|page| - 1])) then [|page| - 1] else [];
      assert pos == pos0 + extra;
      forall a, b | 0 <= a < b < |pos| ensures pos[a] < pos[b] {
        if b < |pos0| {
          assert pos[a] == pos0[a] && pos[b] == pos0[b];
        } else {
          assert pos[a] == pos0[a] && 0 <= pos0[a] < |init|;
          assert pos[b] == |page| - 1;
        }
      }
      forall j | 0 <= j < |pos| ensures 0 <= pos[j] < |page| {
        if j < |pos0| { assert pos[j] == pos0[j]; }
      }
    }
  }

  /** The `j`-th kept profile is the summary at the `j`-th matching position, with its tag map. */
  lemma {:induction false} KeptAtPositions(filters: Dict, page: seq<Summary>, tagsOf: Option<string> -> TagResponse)
    ensures |Kept(filters, page, tagsOf)| == |MatchPositions(filters, page, tagsOf)|
    ensures forall j :: 0 <= j < |MatchPositions(filters, page, tagsOf)| ==>
      0 <= MatchPositions(filters, page, tagsOf)[j] < |page| &&
      Kept(filters, page, tagsOf)[j] == AppProfile(page[MatchPositions(filters, page, tagsOf)[j]],
                                                   TagMapOf(tagsOf, page[MatchPositions(filters, page, tagsOf)[j]]))
    decreases |page|
  {
    if |page| > 0 {
      var init := page[..|page| - 1];
      var last := page[|page| - 1];
      var tags := TagMapOf(tagsOf, last);
      KeptAtPositions(filters, init, tagsOf);
      var kept0, pos0 := Kept(filters, init, tagsOf), MatchPositions(filters, init, tagsOf);
      var kept, pos := Kept(filters, page, tagsOf), MatchPositions(filters, page, tagsOf);
      assert kept == kept0 + if Matches(filters, tags) then [AppProfile(last, tags)] else [];
      assert pos == pos0 + if Matches(filters, tags) then [|page| - 1] else [];
      forall j | 0 <= j < |pos|
        ensures 0 <= pos[j] < |page| && kept[j] == AppProfile(page[pos[j]], TagMapOf(tagsOf, page[pos[j]]))
      {
        if j < |pos0| {
          assert kept[j] == kept0[j] && pos[j] == pos0[j];
          assert page[pos0[j]] == init[pos0[j]];
        }
      }
    }
  }

  /** The kept profiles are exactly the matching summaries, in provider order, each copied
      unchanged with its own tag map attached. */
  lemma KeptIsMatchingSubsequence(filters: Dict, page: seq<Summary>, tagsOf: Option<string> -> TagResponse)
    ensures forall i :: i in MatchPositions(filters, page, tagsOf) <==>
      0 <= i < |page| && Matches(filters, TagMapOf(tagsOf, page[i]))
    ensures forall a, b :: 0 <= a < b < |MatchPositions(filters, page, tagsOf)| ==>
      MatchPositions(filters, page, tagsOf)[a] < MatchPositions(filters, page, tagsOf)[b]
    ensures |Kept(filters, page, tagsOf)| == |MatchPositions(filters, page, tagsOf)|
    ensures forall j :: 0 <= j < |MatchPositions(filters, page, tagsOf)| ==>
      0 <= MatchPositions(filters, page, tagsOf)[j] < |page| &&
      Kept(filters, page, tagsOf)[j] == AppProfile(page[MatchPositions(filters, page, tagsOf)[j]],
                                                   TagMapOf(tagsOf, page[MatchPositions(filters, page, tagsOf)[j]]))
  {
    forall i { MatchPositionsIff(filters, page, tagsOf, i); }
    MatchPositionsAscending(filters, page, tagsOf);
    KeptAtPositions(filters, page, tagsOf);
  }

  /** A profile is discovered iff every tag fetch succeeded, its summary is in the page, and
      its tag map (which is attached to it) matches the filter. */
  lemma {:induction false} DiscoveredMembership(filters: Dict, page: seq<Summary>, tagsOf: Option<string> -> TagResponse, p: AppProfile)
    ensures p in Discovered(filters, page, tagsOf) <==>
      AllFetched(page, tagsOf) && p.summary in page && p.tags == TagMapOf(tagsOf, p.summary) && Matches(filters, p.tags)
    decreases |page|
  {
    if AllFetched(page, tagsOf) && |page| > 0 {
      var init := page[..|page| - 1];
      assert AllFetched(init, tagsOf) by {
        forall i | 0 <= i < |init| ensures tagsOf(init[i].arn).TagsListed? { assert init[i] == page[i]; }
      }
      DiscoveredMembership(filters, init, tagsOf, p);
      assert page == init + [page[|page| - 1]];
    }
  }

  /** With an empty filter every summary of the page is kept, in order. */
  lemma {:induction false} EmptyFilterKeepsAll(page: seq<Summary>, tagsOf: Option<string> -> TagResponse)
    ensures |Kept([], page, tagsOf)| == |page|
    ensures forall i :: 0 <= i < |page| ==> Kept([], page, tagsOf)[i] == AppProfile(page[i], TagMapOf(tagsOf, page[i]))
    decreases |page|
  {
    if |page| > 0 {
      EmptyFilterKeepsAll(page[..|page| - 1], tagsOf);
    }
  }
}
