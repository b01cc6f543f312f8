/** The admin command (`admin create-aip`): list the current Claude system inference
    profiles, let the operator pick one, and issue one create request for a tagged
    application inference profile that copies it. */
module AdminApp {
  import opened Wrappers
  import opened Strings
  import opened TagMaps
  import opened Bedrock
  import opened Discovery
  import opened Selection
  import opened TagArgument

  /** The admin listing of application profiles asks for pages of this many summaries. */
  const AdminPageSize: nat := 250

  /** Application profiles matching `filters`, from the first page of at most 250 summaries;
      a `ClientError` gives an empty list. */
  method ListApplicationInferenceProfiles(filters: Dict, provider: Provider) returns (profiles: seq<AppProfile>)
    ensures profiles == ListingResult(filters, provider.applicationProfiles, AdminPageSize, provider.tagsOf)
    ensures forall p :: p in profiles ==> Matches(filters, p.tags)
  {
    match provider.applicationProfiles
    case ListFailed =>
      profiles := [];
    case Listed(catalog) =>
      var page := FirstPage(catalog, AdminPageSize);
      profiles := FilterByTags(filters, page, provider.tagsOf);
      forall p | p in profiles ensures Matches(filters, p.tags) {
        DiscoveredMembership(filters, page, provider.tagsOf, p);
      }
  }

  // ---------------------------------------------------------------------------------------
  // The Claude system-profile filter

  const FamilyMarker := "claude"
  /** Identifier fragments of the models the filter drops: a plain substring test, so any
      identifier holding `3-5` anywhere is dropped too. */
  const LegacyMarkers := ["3-5", "claude-3-haiku", "claude-3-sonnet", "claude-3-opus"]

  /** The identifier a summary is tested and sorted by; a missing one counts as empty. */
  function IdOf(s: Summary): string {
    s.id.GetOr("")
  }

  /** The lower-cased identifier contains the family marker and none of the legacy markers. */
  predicate IsCurrentClaude(id: string) {
    var lower := Lower(id);
    Contains(lower, FamilyMarker) && forall k :: 0 <= k < |LegacyMarkers| ==> !Contains(lower, LegacyMarkers[k])
  }

  /** The list comprehension: the summaries that pass, in provider order. */
  function FilterClaude(page: seq<Summary>): seq<Summary> {
    if |page| == 0 then []
    else (if IsCurrentClaude(IdOf(page[0])) then [page[0]] else []) + FilterClaude(page[1..])
  }

  /** The comprehension keeps each passing summary as often as the page holds it, and no other. */
  lemma {:induction false} FilterClaudeCounts(page: seq<Summary>, p: Summary)
    ensures multiset(FilterClaude(page))[p] == if IsCurrentClaude(IdOf(p)) then multiset(page)[p] else 0
    decreases |page|
  {
    if |page| > 0 {
      FilterClaudeCounts(page[1..], p);
      assert page == [page[0]] + page[1..];
    }
  }

  /** Every element of `s` is ordered at or after `key`. */
  predicate AllAtLeast(key: string, s: seq<Summary>) {
    forall i :: 0 <= i < |s| ==> StrLe(key, IdOf(s[i]))
  }

  /** Ascending by identifier, as Python orders strings. */
  predicate SortedById(s: seq<Summary>) {
    forall i, j :: 0 <= i < j < |s| ==> StrLe(IdOf(s[i]), IdOf(s[j]))
  }

  /** Puts `x` before the first element it is ordered at or before. */
  function InsertById(x: Summary, s: seq<Summary>): seq<Summary> {
    if |s| == 0 || StrLe(IdOf(x), IdOf(s[0])) then [x] + s
    else [s[0]] + InsertById(x, s[1..])
  }

  /** `sorted(..., key=id)`, as an insertion sort: each element goes in front of the elements
      with an equal key that follow it, so the order of equal keys is kept. */
  function SortById(s: seq<Summary>): seq<Summary> {
    if |s| == 0 then [] else InsertById(s[0], SortById(s[1..]))
  }

  lemma {:induction false} InsertByIdElements(x: Summary, s: seq<Summary>)
    ensures multiset(InsertById(x, s)) == multiset(s) + multiset{x}
    decreases |s|
  {
    if |s| > 0 && !StrLe(IdOf(x), IdOf(s[0])) {
      InsertByIdElements(x, s[1..]);
      assert s == [s[0]] + s[1..];
    }
  }

  lemma {:induction false} InsertByIdLowerBound(key: string, x: Summary, s: seq<Summary>)
    requires AllAtLeast(key, s) && StrLe(key, IdOf(x))
    ensures AllAtLeast(key, InsertById(x, s))
    decreases |s|
  {
    if |s| > 0 && !StrLe(IdOf(x), IdOf(s[0])) {
      InsertByIdLowerBound(key, x, s[1..]);
    }
  }

  lemma {:induction false} InsertByIdSorted(x: Summary, s: seq<Summary>)
    requires SortedById(s)
    ensures SortedById(InsertById(x, s))
    decreases |s|
  {
    if |s| > 0 {
      if StrLe(IdOf(x), IdOf(s[0])) {
        forall j | 0 <= j < |s| ensures StrLe(IdOf(x), IdOf(s[j])) {
          if j > 0 { StrLeTransitive(IdOf(x), IdOf(s[0]), IdOf(s[j])); }
        }
      } else {
        var rest := InsertById(x, s[1..]);
        InsertByIdSorted(x, s[1..]);
        StrLeTotal(IdOf(x), IdOf(s[0]));
        InsertByIdLowerBound(IdOf(s[0]), x, s[1..]);
        assert InsertById(x, s) == [s[0]] + rest;
      }
    }
  }

  /** The sort yields an ascending permutation of its input. */
  lemma {:induction false} SortByIdCorrect(s: seq<Summary>)
    ensures SortedById(SortById(s))
    ensures multiset(SortById(s)) == multiset(s)
    decreases |s|
  {
    if |s| > 0 {
      SortByIdCorrect(s[1..]);
      InsertByIdSorted(s[0], SortById(s[1..]));
      InsertByIdElements(s[0], SortById(s[1..]));
      assert s == [s[0]] + s[1..];
    }
  }

  /** The elements of `s` whose identifier is `key`, in order. */
  function WithId(s: seq<Summary>, key: string): seq<Summary> {
    if |s| == 0 then []
    else (if IdOf(s[0]) == key then [s[0]] else []) + WithId(s[1..], key)
  }

  lemma {:induction false} InsertByIdStable(x: Summary, s: seq<Summary>, key: string)
    ensures WithId(InsertById(x, s), key) == (if IdOf(x) == key then [x] else []) + WithId(s, key)
    decreases |s|
  {
    if |s| > 0 && !StrLe(IdOf(x), IdOf(s[0])) {
      InsertByIdStable(x, s[1..], key);
      StrLeReflexive(IdOf(x));
      assert IdOf(x) != IdOf(s[0]);
      var rest := InsertById(x, s[1..]);
      assert InsertById(x, s) == [s[0]] + rest;
      assert WithId([s[0]] + rest, key) == (if IdOf(s[0]) == key then [s[0]] else []) + WithId(rest, key) by {
        assert ([s[0]] + rest)[1..] == rest;
      }
    } else if |s| > 0 {
      assert ([x] + s)[1..] == s;
    }
  }

  /** The sort is stable: profiles with the same identifier keep their relative order. */
  lemma {:induction false} SortByIdStable(s: seq<Summary>, key: string)
    ensures WithId(SortById(s), key) == WithId(s, key)
    decreases |s|
  {
    if |s| > 0 {
      SortByIdStable(s[1..], key);
      InsertByIdStable(s[0], SortById(s[1..]), key);
    }
  }

  /** The comprehension keeps the summaries with a given identifier all, in page order, when
      that identifier passes, and none of them otherwise. */
  lemma {:induction false} FilterClaudeWithId(page: seq<Summary>, key: string)
    ensures WithId(FilterClaude(page), key) == if IsCurrentClaude(key) then WithId(page, key) else []
    decreases |page|
  {
    if |page| > 0 {
      FilterClaudeWithId(page[1..], key);
      var rest := FilterClaude(page[1..]);
      if IsCurrentClaude(IdOf(page[0])) {
        assert FilterClaude(page) == [page[0]] + rest;
        assert ([page[0]] + rest)[1..] == rest;
      } else {
        assert FilterClaude(page) == rest;
      }
    }
  }

  /** The Claude profiles offered to the operator: the passing system profiles of the first
      page, sorted by identifier; a `ClientError` gives an empty list. */
  function ListClaudeInferenceProfiles(provider: Provider): seq<Summary> {
    match provider.systemProfiles
    case ListFailed => []
    case Listed(catalog) => SortById(FilterClaude(FirstPage(catalog, provider.defaultPageSize)))
  }

  /** The page of system profiles the filter reads (empty when the listing fails). */
  function SystemPage(provider: Provider): seq<Summary> {
    match provider.systemProfiles
    case ListFailed => []
    case Listed(catalog) => FirstPage(catalog, provider.defaultPageSize)
  }

  /** The offered list is sorted ascending by identifier, is a permutation of exactly the
      passing profiles of the page (each as often as the page holds it), keeps the page order
      among equal identifiers, and never holds a profile without an identifier. */
  lemma ClaudeProfilesCorrect(provider: Provider)
    ensures var r := ListClaudeInferenceProfiles(provider);
      && SortedById(r)
      && (forall p :: multiset(r)[p] == if IsCurrentClaude(IdOf(p)) then multiset(SystemPage(provider))[p] else 0)
      && (forall key :: WithId(r, key) == if IsCurrentClaude(key) then WithId(SystemPage(provider), key) else [])
      && (forall p :: p in r ==> p.id.Some? && IsCurrentClaude(p.id.value))
  {
    var page := SystemPage(provider);
    var filtered := FilterClaude(page);
    assert ListClaudeInferenceProfiles(provider) == SortById(filtered);
    SortByIdCorrect(filtered);
    forall p ensures multiset(SortById(filtered))[p] == if IsCurrentClaude(IdOf(p)) then multiset(page)[p] else 0 {
      FilterClaudeCounts(page, p);
    }
    forall key ensures WithId(SortById(filtered), key) == if IsCurrentClaude(key) then WithId(page, key) else [] {
      SortByIdStable(filtered, key);
      FilterClaudeWithId(page, key);
    }
    OfferedAreCurrent(provider);
  }

  /** Every offered profile has an identifier, and it passes the filter. */
  lemma OfferedAreCurrent(provider: Provider)
    ensures forall p :: p in ListClaudeInferenceProfiles(provider) ==> p.id.Some? && IsCurrentClaude(p.id.value)
  {
    var page := SystemPage(provider);
    var filtered := FilterClaude(page);
    assert ListClaudeInferenceProfiles(provider) == SortById(filtered);
    SortByIdCorrect(filtered);
    forall p | p in SortById(filtered) ensures p.id.Some? && IsCurrentClaude(p.id.value) {
      assert multiset(SortById(filtered))[p] > 0;
      FilterClaudeCounts(page, p);
      assert IsCurrentClaude(IdOf(p));
    }
  }

  /** A legacy marker anywhere in the identifier, in any letter case around it, excludes it. */
  lemma LegacyMarkerExcludes(before: string, k: int, after: string)
    requires 0 <= k < |LegacyMarkers|
    ensures !IsCurrentClaude(before + LegacyMarkers[k] + after)
  {
    var m := LegacyMarkers[k];
    var id := before + m + after;
    assert Lower(m) == m;
    assert Lower(id) == Lower(before) + m + Lower(after);
    ContainsIffOccurs(m, m);
    assert OccursAt(m, m, 0);
    ContainsInContext(Lower(before), m, Lower(after), m);
  }

  /** Letter case never matters: two identifiers equal up to ASCII case get the same verdict. */
  lemma CaseInsensitive(a: string, b: string)
    requires Lower(a) == Lower(b)
    ensures IsCurrentClaude(a) == IsCurrentClaude(b)
  { }

  // ---------------------------------------------------------------------------------------
  // Choosing the source profile

  /** No Claude profile means no prompt and no selection; otherwise the answer picks one. */
  function PromptForInferenceProfile(provider: Provider, answer: Answer): (r: Option<Summary>)
    ensures r.Some? <==> answer.Number? && 1 <= answer.n <= |ListClaudeInferenceProfiles(provider)|
    ensures r.Some? ==> r.value == ListClaudeInferenceProfiles(provider)[answer.n - 1]
    ensures r.Some? ==> r.value.id.Some? && IsCurrentClaude(r.value.id.value)
  {
    var profiles := ListClaudeInferenceProfiles(provider);
    OfferedAreCurrent(provider);
    if |profiles| == 0 then None
    else
      assert answer.Number? && 1 <= answer.n <= |profiles| ==> profiles[answer.n - 1] in profiles;
      Choose(profiles, answer)
  }

  // ---------------------------------------------------------------------------------------
  // The create request

  /** The tag map in the provider's list form, one `{key, value}` element per entry, in the
      map's iteration order. */
  function AwsTags(tags: Dict): (r: seq<Tag>)
    ensures |r| == |tags|
    ensures forall i :: 0 <= i < |tags| ==> r[i].key == tags[i].0 && r[i].value == tags[i].1
  {
    seq(|tags|, i requires 0 <= i < |tags| => Tag(tags[i].0, tags[i].1))
  }

  /** Reading back the tag list sent with the request rebuilds the caller's tag map. */
  lemma {:induction false} AwsTagsRoundTrip(tags: Dict)
    ensures FromTags(AwsTags(tags)) == tags
    decreases |tags|
  {
    if |tags| > 0 {
      var init: Dict := tags[..|tags| - 1];
      assert AwsTags(tags)[..|tags| - 1] == AwsTags(init);
      AwsTagsRoundTrip(init);
      assert !HasKey(init, tags[|tags| - 1].0) by {
        assert forall i :: 0 <= i < |init| ==> init[i].0 != tags[|tags| - 1].0;
      }
      assert init + [tags[|tags| - 1]] == tags;
    }
  }

  /** The summary of the tags shown after creation: `k=v` for each entry, joined by `", "`. */
  function TagSummary(tags: Dict): string {
    Join(seq(|tags|, i requires 0 <= i < |tags| => tags[i].0 + "=" + tags[i].1))
  }

  /** Reads a tag summary back: split at the commas, drop the space after each, and split
      each piece at its first `=`. */
  function ParseTagSummary(text: string): seq<Entry> {
    if |text| == 0 then []
    else
      var pieces := SplitOn(text, ',');
      seq(|pieces|, i requires 0 <= i < |pieces| =>
        EntryOf(if i > 0 && |pieces[i]| > 0 && pieces[i][0] == ' ' then pieces[i][1..] else pieces[i]))
  }

  /** The key before the first `=` and the value after it. */
  function EntryOf(piece: string): Entry {
    var j := FirstIndexOf(piece, '=');
    if j < 0 then (piece, "") else (piece[..j], piece[j + 1..])
  }

  lemma EntryOfPair(k: string, v: string)
    requires '=' !in k
    ensures EntryOf(k + "=" + v) == (k, v)
  {
    var piece := k + "=" + v;
    var j := FirstIndexOf(piece, '=');
    assert piece[|k|] == '=';
    assert piece[..|k|] == k && piece[|k| + 1..] == v;
  }

  /** When no key holds `,` or `=` and no value holds `,`, the summary shown after creation
      lists exactly the caller's tags, in their order. */
  lemma TagSummaryRoundTrip(tags: Dict)
    requires forall i :: 0 <= i < |tags| ==> ',' !in tags[i].0 && '=' !in tags[i].0 && ',' !in tags[i].1
    ensures ParseTagSummary(TagSummary(tags)) == tags
  {
    if |tags| > 0 {
      var parts := seq(|tags|, i requires 0 <= i < |tags| => tags[i].0 + "=" + tags[i].1);
      forall i | 0 <= i < |parts| ensures ',' !in parts[i] {
        assert forall m :: 0 <= m < |parts[i]| ==>
          parts[i][m] == if m < |tags[i].0| then tags[i].0[m] else if m == |tags[i].0| then '=' else tags[i].1[m - |tags[i].0| - 1];
      }
      SplitJoin(parts);
      var text := Join(parts);
      assert |text| > 0 by { JoinNonEmpty(parts); }
      var pieces := SplitOn(text, ',');
      forall i | 0 <= i < |tags| ensures ParseTagSummary(text)[i] == tags[i] {
        if i > 0 {
          assert pieces[i] == " " + parts[i];
          assert pieces[i][1..] == parts[i];
        }
        EntryOfPair(tags[i].0, tags[i].1);
      }
    }
  }

  lemma {:induction false} JoinNonEmpty(parts: seq<string>)
    requires |parts| >= 1 && |parts[|parts| - 1]| > 0
    ensures |Join(parts)| > 0
  { }

  /** The arguments of `create_inference_profile`. */
  datatype CreateRequest = CreateRequest(
    inferenceProfileName: string,
    description: string,
    copyFrom: Option<string>,  // modelSource.copyFrom: the chosen profile's ARN
    tags: seq<Tag>)

  /** The provider's answer to the create request. */
  datatype CreateReply = CreateOk(arn: Option<string>) | CreateFailed

  datatype AdminExit =
    | InvalidTagText     // neither parser takes the `--tags` text
    | EmptyTags          // the parsed tag map is empty
    | NoProfileSelected  // no Claude profile listed, or the answer chose none

  /** How a run ends: stopped before any create request, the one request and its success
      (with the new ARN, the source profile's id and the tag summary shown), or the one
      request refused by the provider. */
  datatype AdminOutcome =
    | Aborted(reason: AdminExit)
    | Created(request: CreateRequest, profileArn: Option<string>, sourceId: Option<string>, tagSummary: string)
    | CreateRejected(request: CreateRequest)

  /** The request that copies `source` under `name` with the caller's tags. */
  function RequestFor(name: string, source: Summary, tags: Dict): CreateRequest {
    CreateRequest(name, "Application Inference Profile " + name, source.arn, AwsTags(tags))
  }

  /** The whole `create-aip` command from the parsed tags, the listing, the operator's answer
      and the provider's reply to the create request. */
  function CreateProfile(name: string, tags: Dict, provider: Provider, answer: Answer, reply: CreateReply)
    : (r: AdminOutcome)
    ensures r == Aborted(EmptyTags) <==> |tags| == 0
    ensures r == Aborted(NoProfileSelected) <==> |tags| > 0 && PromptForInferenceProfile(provider, answer).None?
    ensures !r.Aborted? ==>
      && answer.Number? && 1 <= answer.n <= |ListClaudeInferenceProfiles(provider)|
      && r.request == RequestFor(name, ListClaudeInferenceProfiles(provider)[answer.n - 1], tags)
    ensures r.Created? <==> !r.Aborted? && reply.CreateOk?
    ensures r.Created? ==> r.profileArn == reply.arn && r.tagSummary == TagSummary(tags)
  {
    if |tags| == 0 then Aborted(EmptyTags)
    else
      var awsTags := AwsTags(tags);
      var selected := PromptForInferenceProfile(provider, answer);
      if selected.None? then Aborted(NoProfileSelected)
      else
        var source := selected.value;
        var request := CreateRequest(name, "Application Inference Profile " + name, source.arn, awsTags);
        match reply
        case CreateFailed => CreateRejected(request)
        case CreateOk(arn) => Created(request, arn, source.id, TagSummary(tags))
  }

  /** The `create-aip` command from the `--tags` text on. */
  function CreateCommand(name: string, parses: Parses, provider: Provider, answer: Answer, reply: CreateReply)
    : (r: AdminOutcome)
    ensures r == Aborted(InvalidTagText) <==> ParseTags(parses).None?
  {
    match ParseTags(parses)
    case None => Aborted(InvalidTagText)
    case Some(tags) => CreateProfile(name, tags, provider, answer, reply)
  }

  // ---------------------------------------------------------------------------------------
  // Admin and client together

  /** A profile created with `tags`, whose tag list the provider then reports as sent, is
      found by a client that filters by those tags (or by any part of them), with the same
      tag map attached. */
  lemma CreatedProfileIsFound(tags: Dict, filters: Dict, page: seq<Summary>, tagsOf: Option<string> -> TagResponse, s: Summary)
    requires s in page && AllFetched(page, tagsOf)
    requires tagsOf(s.arn) == TagsListed(AwsTags(tags))
    requires forall k :: HasKey(filters, k) ==> Lookup(tags, k) == Lookup(filters, k)
    ensures AppProfile(s, tags) in Discovered(filters, page, tagsOf)
  {
    AwsTagsRoundTrip(tags);
    assert TagMapOf(tagsOf, s) == tags;
    MatchesIffSubDict(filters, tags);
    DiscoveredMembership(filters, page, tagsOf, AppProfile(s, tags));
  }
}

/** An end-to-end admin run: one current Claude profile listed, the operator answers 1,
    and exactly one create request goes out. */
module AdminScenario {
  import opened Wrappers
  import opened TagMaps
  import opened Bedrock
  import opened Selection
  import opened TagArgument
  import opened AdminApp

  /** The tags of the run below, as `json.loads` reads `{"Team":"X","DeveloperId":"d1"}`. */
  const TestTags: Dict := [("Team", "X"), ("DeveloperId", "d1")]

  /** `create-aip --name test-profile --tags '{"Team":"X","DeveloperId":"d1"}'` against a
      provider whose system listing holds one current Claude profile: the request copies that
      profile's ARN and carries the two tags in the order given. */
  lemma CreateTestProfile(id: string, arn: string, provider: Provider, reply: CreateReply)
    requires IsCurrentClaude(id)
    requires provider.systemProfiles == Listed([Summary(Some(id), None, Some(arn), None)])
    requires provider.defaultPageSize >= 1
    ensures var r := CreateCommand("test-profile", Parses(Some(TestTags), None), provider, Number(1), reply);
      && !r.Aborted?
      && r.request == CreateRequest("test-profile", "Application Inference Profile test-profile", Some(arn),
                                    [Tag("Team", "X"), Tag("DeveloperId", "d1")])
  {
    var s := Summary(Some(id), None, Some(arn), None);
    assert FirstPage([s], provider.defaultPageSize) == [s];
    assert FilterClaude([s]) == [s];
    assert SortById([s]) == [s];
    assert ListClaudeInferenceProfiles(provider) == [s];
    assert PromptForInferenceProfile(provider, Number(1)) == Some(s);
    assert AwsTags(TestTags) == [Tag("Team", "X"), Tag("DeveloperId", "d1")];
    assert RequestFor("test-profile", s, TestTags) ==
      CreateRequest("test-profile", "Application Inference Profile test-profile", Some(arn), AwsTags(TestTags));
  }
}
