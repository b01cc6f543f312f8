/** The client command (`client setup`): find the application inference profiles that carry
    the caller's tags, let the user pick one, and produce the bindings the settings template
    is rendered with. */
module ClientApp {
  import opened Wrappers
  import opened Strings
  import opened TagMaps
  import opened Bedrock
  import opened Discovery
  import opened Selection
  import opened TagArgument

  /** Application profiles matching `filters`. The request names no `maxResults`, so the
      provider's default page size applies; a `ClientError` gives an empty list. */
  method ListApplicationInferenceProfiles(filters: Dict, provider: Provider) returns (profiles: seq<AppProfile>)
    ensures profiles == ListingResult(filters, provider.applicationProfiles, provider.defaultPageSize, provider.tagsOf)
  {
    match provider.applicationProfiles
    case ListFailed =>
      profiles := [];
    case Listed(catalog) =>
      profiles := FilterByTags(filters, FirstPage(catalog, provider.defaultPageSize), provider.tagsOf);
  }

  /** The model ARN of a profile: its first model's ARN, or "Unknown" when the summary has no
      `models` member. None when the list is present but empty: indexing it raises
      `IndexError`, which nothing catches. */
  function ModelSource(s: Summary): Option<string> {
    match s.models
    case None => Some("Unknown")
    case Some(ms) => if |ms| == 0 then None else Some(ms[0].modelArn)
  }

  /** The model id shown for a model ARN: the last `/`-separated piece when the ARN holds a
      `/`, the whole string otherwise. Both branches agree with `LastSegment`. */
  function ModelId(source: string): (r: string)
    ensures r == LastSegment(source)
  {
    LastSegmentIsFinalPiece(source);
    if '/' in source then LastSegment(source) else source
  }

  /** For an ARN of the form `<prefix>/<id>` with no `/` in `id`, the model id is `id`. */
  lemma ModelIdOfArn(prefix: string, id: string)
    requires '/' !in id
    ensures ModelId(prefix + "/" + id) == id
  {
    LastSegmentAfterSlash(prefix, id);
  }

  /** One row of the table of profiles: its 1-based number, name and foundation model id. */
  datatype Row = Row(number: nat, profileName: string, foundationModel: string)

  /** The row shown for the profile at 0-based position `i`. */
  function RowFor(i: nat, p: AppProfile): Row
    requires ModelSource(p.summary).Some?
  {
    Row(i + 1, p.summary.name.GetOr("Unknown"), ModelId(ModelSource(p.summary).value))
  }

  /** What the listing display ends in: nothing to show for an empty list, the table and the
      list of profiles it numbers, or a crash at the first profile whose `models` is empty. */
  datatype Display = NothingToShow | Shown(data: seq<AppProfile>, rows: seq<Row>) | NoModelAt(position: nat)

  /** Builds the numbered table and the list `profile_data`, appending one profile per row. */
  method DisplayInferenceProfiles(profiles: seq<AppProfile>) returns (shown: Display)
    ensures shown == NothingToShow <==> |profiles| == 0
    ensures shown.Shown? <==> |profiles| > 0 && AllShowable(profiles)
    ensures shown.Shown? ==> shown.data == profiles && RowsUpTo(shown.rows, profiles, |profiles|)
    ensures shown.NoModelAt? ==>
      shown.position < |profiles| && ModelSource(profiles[shown.position].summary).None? &&
      forall i :: 0 <= i < shown.position ==> ModelSource(profiles[i].summary).Some?
  {
    if |profiles| == 0 {
      return NothingToShow;
    }
    var profileData: seq<AppProfile> := [];
    var rows: seq<Row> := [];
    var i := 0;
    while i < |profiles|
      invariant 0 <= i <= |profiles|
      invariant profileData == profiles[..i]
      invariant RowsUpTo(rows, profiles, i)
    {
      var profile := profiles[i];
      if ModelSource(profile.summary).None? {
        assert !AllShowable(profiles);
        return NoModelAt(i);
      }
      RowsStep(rows, profiles, i);
      rows := rows + [RowFor(i, profile)];
      profileData := profileData + [profile];
      i := i + 1;
    }
    assert profiles[..i] == profiles;
    return Shown(profileData, rows);
  }

  /** `rows` are the rows of the first `i` profiles, each of which has a model to show. */
  predicate RowsUpTo(rows: seq<Row>, profiles: seq<AppProfile>, i: int) {
    && 0 <= i <= |profiles| && |rows| == i
    && (forall j :: 0 <= j < i ==> ModelSource(profiles[j].summary).Some?)
    && (forall j :: 0 <= j < i ==> rows[j] == RowFor(j, profiles[j]))
  }

  /** Appending the row of a showable profile extends the table by one row. */
  lemma RowsStep(rows: seq<Row>, profiles: seq<AppProfile>, i: int)
    requires RowsUpTo(rows, profiles, i) && i < |profiles| && ModelSource(profiles[i].summary).Some?
    ensures RowsUpTo(rows + [RowFor(i, profiles[i])], profiles, i + 1)
  {
    var next := rows + [RowFor(i, profiles[i])];
    forall j | 0 <= j < i + 1 ensures ModelSource(profiles[j].summary).Some? && next[j] == RowFor(j, profiles[j]) {
      if j < i { assert next[j] == rows[j]; }
    }
  }

  /** Answering the number printed in a profile's row selects that profile, and a completed
      run then binds that profile's ARN. */
  lemma ShownNumberSelects(profiles: seq<AppProfile>, i: int, region: string, awsProfile: string)
    requires 0 <= i < |profiles| && ModelSource(profiles[i].summary).Some?
    ensures Choose(profiles, Number(RowFor(i, profiles[i]).number)) == Some(profiles[i])
    ensures var arn := profiles[i].summary.arn.GetOr("Unknown");
      ChoiceOutcome(profiles, Number(RowFor(i, profiles[i]).number), region, awsProfile) ==
        Configured(arn, RenderBindings(arn, region, awsProfile))
  { }

  /** The detail view of the chosen profile; `arn` is what the function returns. */
  datatype Details = Details(profileName: string, foundationModel: string, arn: string, tags: Dict)

  /** The details of a profile, whose ARN (or "Unknown" when absent) is passed on; None when
      its `models` list is empty and the command crashes. */
  function DisplayProfileDetails(p: AppProfile): (r: Option<Details>)
    ensures r.Some? <==> ModelSource(p.summary).Some?
    ensures r.Some? ==> r.value.arn == p.summary.arn.GetOr("Unknown") && r.value.tags == p.tags
    ensures r.Some? && p.summary.models.None? ==> r.value.foundationModel == "Unknown"
  {
    match ModelSource(p.summary)
    case None => None
    case Some(source) =>
      Some(Details(p.summary.name.GetOr("Unknown"), ModelId(source), p.summary.arn.GetOr("Unknown"), p.tags))
  }

  const AwsProfileKey := "AWS_PROFILE"
  const ModelKey := "ANTHROPIC_MODEL"
  const HaikuModelKey := "ANTHROPIC_DEFAULT_HAIKU_MODEL"
  const RegionKey := "AWS_REGION"

  /** The four bindings the settings template is rendered with; the secondary (haiku) model is
      always the empty string. */
  function RenderBindings(profileArn: string, region: string, awsProfile: string): (b: map<string, string>)
    ensures b.Keys == {AwsProfileKey, ModelKey, HaikuModelKey, RegionKey}
    ensures b[AwsProfileKey] == awsProfile && b[ModelKey] == profileArn
    ensures b[HaikuModelKey] == "" && b[RegionKey] == region
  {
    map[AwsProfileKey := awsProfile, ModelKey := profileArn, HaikuModelKey := "", RegionKey := region]
  }

  /** Why the command stops with exit code 1. */
  datatype ClientExit =
    | InvalidTagText         // neither parser takes the `--tags` text
    | EmptyTags              // the parsed tag map is empty
    | NoProfilesFound        // no application profile matches
    | InvalidChoice(count: nat) // a number outside [1, count]
    | InvalidInput           // the answer is not a number

  /** The uncaught exceptions that end a run with a traceback. */
  datatype Crash =
    | TagTextNameError       // the fallback tag parser names the unimported `ast`
    | EmptyModelsIndexError  // a found profile's `models` list is empty

  /** How a run ends: an exit with a message, a crash, or the settings bindings for the
      chosen profile. */
  datatype ClientOutcome =
    | Exited(reason: ClientExit)
    | Crashed(cause: Crash)
    | Configured(profileArn: string, bindings: map<string, string>)

  /** The profiles the command lists for `tags`. */
  function Found(tags: Dict, provider: Provider): seq<AppProfile> {
    ListingResult(tags, provider.applicationProfiles, provider.defaultPageSize, provider.tagsOf)
  }

  /** Every found profile has a model ARN to show. */
  predicate AllShowable(profiles: seq<AppProfile>) {
    forall i :: 0 <= i < |profiles| ==> ModelSource(profiles[i].summary).Some?
  }

  /** The outcome of the `setup` command for the parsed tags and the user's three answers
      (the profile number, the region and the credential profile name). */
  function SetupOutcome(tags: Dict, provider: Provider, answer: Answer, region: string, awsProfile: string)
    : ClientOutcome
  {
    var found := Found(tags, provider);
    if |tags| == 0 then Exited(EmptyTags)
    else if |found| == 0 then Exited(NoProfilesFound)
    else if !AllShowable(found) then Crashed(EmptyModelsIndexError)
    else ChoiceOutcome(found, answer, region, awsProfile)
  }

  /** The end of the `setup` command once the table is shown: the answer picks a profile,
      whose ARN the settings bind, or the command exits. */
  function ChoiceOutcome(found: seq<AppProfile>, answer: Answer, region: string, awsProfile: string): ClientOutcome {
    match answer
    case NotANumber => Exited(InvalidInput)
    case Number(choice) =>
      if 1 <= choice <= |found| then
        var arn := found[choice - 1].summary.arn.GetOr("Unknown");
        Configured(arn, RenderBindings(arn, region, awsProfile))
      else Exited(InvalidChoice(|found|))
  }

  /** The `setup` command from the `--tags` text on, as client_app.py has it: text that is
      not JSON raises `NameError` in the tag parser. */
  function SetupCommand(parses: Parses, provider: Provider, answer: Answer, region: string, awsProfile: string)
    : ClientOutcome
  {
    match ClientParseTagsAsWritten(parses)
    case NameErrorRaised => Crashed(TagTextNameError)
    case ParsedTags(tags) => SetupOutcome(tags, provider, answer, region, awsProfile)
  }

  /** The `setup` command with the tag parser working as admin_app.py's does: a dictionary
      literal is read, and text neither reader takes exits with a message. */
  function IntendedSetupCommand(parses: Parses, provider: Provider, answer: Answer, region: string, awsProfile: string)
    : ClientOutcome
  {
    match ParseTags(parses)
    case None => Exited(InvalidTagText)
    case Some(tags) => SetupOutcome(tags, provider, answer, region, awsProfile)
  }

  /** The command as written and as intended agree on JSON text; on any other text the
      written one crashes, while the intended one reads a dictionary literal or exits with
      the "valid JSON" message. Single-quoted `{'Team': 'X'}` shows the difference. */
  lemma SetupCommandAsWritten(parses: Parses, provider: Provider, answer: Answer, region: string, awsProfile: string)
    ensures parses.json.Some? ==>
      SetupCommand(parses, provider, answer, region, awsProfile) ==
        IntendedSetupCommand(parses, provider, answer, region, awsProfile)
    ensures parses.json.None? ==> SetupCommand(parses, provider, answer, region, awsProfile) == Crashed(TagTextNameError)
    ensures IntendedSetupCommand(parses, provider, answer, region, awsProfile) == Exited(InvalidTagText) <==>
      parses.json.None? && parses.literal.None?
    ensures parses.json.None? && parses.literal.Some? ==>
      IntendedSetupCommand(parses, provider, answer, region, awsProfile) ==
        SetupOutcome(parses.literal.value, provider, answer, region, awsProfile)
  {
    if parses.json.None? && parses.literal.Some? {
      var outcome := SetupOutcome(parses.literal.value, provider, answer, region, awsProfile);
      assert outcome.Exited? ==> outcome.reason != InvalidTagText;
    }
  }

  /** The `setup` command run step by step: tag parsing and check, listing, table, choice,
      details. */
  method ClientSetup(parses: Parses, provider: Provider, answer: Answer, region: string, awsProfile: string)
    returns (outcome: ClientOutcome)
    ensures outcome == SetupCommand(parses, provider, answer, region, awsProfile)
  {
    var parsed := ClientParseTagsAsWritten(parses);
    if parsed.NameErrorRaised? {
      return Crashed(TagTextNameError);
    }
    var tags := parsed.tags;
    if |tags| == 0 {
      return Exited(EmptyTags);
    }
    var profiles := ListApplicationInferenceProfiles(tags, provider);
    assert profiles == Found(tags, provider);
    if |profiles| == 0 {
      return Exited(NoProfilesFound);
    }
    var shown := DisplayInferenceProfiles(profiles);
    if !shown.Shown? {
      assert !AllShowable(profiles);
      return Crashed(EmptyModelsIndexError);
    }
    outcome := ChooseProfile(shown.data, answer, region, awsProfile);
  }

  /** The prompt for the profile number, the details of the chosen profile and the settings
      bindings for its ARN. */
  method ChooseProfile(profileData: seq<AppProfile>, answer: Answer, region: string, awsProfile: string)
    returns (outcome: ClientOutcome)
    requires AllShowable(profileData)
    ensures outcome == ChoiceOutcome(profileData, answer, region, awsProfile)
  {
    match answer
    case NotANumber =>
      return Exited(InvalidInput);
    case Number(choice) =>
      if 1 <= choice <= |profileData| {
        var selected := profileData[choice - 1];
        var details := DisplayProfileDetails(selected);
        var profileArn := details.value.arn;
        return Configured(profileArn, RenderBindings(profileArn, region, awsProfile));
      } else {
        return Exited(InvalidChoice(|profileData|));
      }
  }

  /** Each way `setup` can end, and exactly when: empty tags stop it before any listing, no
      match and a bad answer each exit with their own message, and a completed run binds the
      ARN of the profile the answer numbers, a profile that carries every tag asked for. */
  lemma SetupOutcomeCases(tags: Dict, provider: Provider, answer: Answer, region: string, awsProfile: string)
    ensures var outcome := SetupOutcome(tags, provider, answer, region, awsProfile);
      && (outcome == Exited(EmptyTags) <==> |tags| == 0)
      && (outcome == Exited(NoProfilesFound) <==> |tags| > 0 && Found(tags, provider) == [])
      && (outcome == Crashed(EmptyModelsIndexError) <==> |tags| > 0 && Found(tags, provider) != [] && !AllShowable(Found(tags, provider)))
      && (outcome == Exited(InvalidInput) <==>
            |tags| > 0 && Found(tags, provider) != [] && AllShowable(Found(tags, provider)) && answer.NotANumber?)
      && (outcome.Exited? && outcome.reason.InvalidChoice? <==>
            |tags| > 0 && Found(tags, provider) != [] && AllShowable(Found(tags, provider)) &&
            answer.Number? && !(1 <= answer.n <= |Found(tags, provider)|))
      && (outcome.Configured? <==>
            |tags| > 0 && AllShowable(Found(tags, provider)) && Choose(Found(tags, provider), answer).Some?)
  { }

  /** A completed run configures the profile the answer numbers, which carries the tags asked
      for: its ARN becomes the model binding, beside the region and the credential profile. */
  lemma ConfiguredProfileMatches(tags: Dict, provider: Provider, answer: Answer, region: string, awsProfile: string)
    requires SetupOutcome(tags, provider, answer, region, awsProfile).Configured?
    ensures Choose(Found(tags, provider), answer).Some?
    ensures var chosen := Choose(Found(tags, provider), answer).value;
      var outcome := SetupOutcome(tags, provider, answer, region, awsProfile);
      && Matches(tags, chosen.tags)
      && outcome.profileArn == chosen.summary.arn.GetOr("Unknown")
      && outcome.bindings == RenderBindings(outcome.profileArn, region, awsProfile)
  {
    ChosenMatches(tags, provider, answer.n - 1);
  }

  /** Every profile found carries the tags asked for. */
  lemma ChosenMatches(tags: Dict, provider: Provider, i: int)
    requires 0 <= i < |Found(tags, provider)|
    ensures Matches(tags, Found(tags, provider)[i].tags)
  {
    var p := Found(tags, provider)[i];
    match provider.applicationProfiles
    case ListFailed =>
    case Listed(catalog) =>
      DiscoveredMembership(tags, FirstPage(catalog, provider.defaultPageSize), provider.tagsOf, p);
  }
}

/** An end-to-end client run. */
module ClientScenario {
  import opened Wrappers
  import opened TagMaps
  import opened Bedrock
  import opened Discovery
  import opened Selection
  import opened TagArgument
  import opened ClientApp

  /** `setup --tags '{"Team":"X"}'` against a provider listing one application profile that
      carries that tag and one more: answering 1, region `us-east-1` and credential profile
      `dev` binds the profile's ARN, the region, the credential profile and an empty haiku
      model. */
  lemma SetupSingleProfile(arn: string, modelArn: string, provider: Provider)
    requires provider.applicationProfiles == Listed([Summary(None, Some("team-x"), Some(arn), Some([ModelRef(modelArn)]))])
    requires provider.defaultPageSize >= 1
    requires provider.tagsOf(Some(arn)) == TagsListed([Tag("Team", "X"), Tag("Owner", "ops")])
    ensures var parsed: Dict := [("Team", "X")];
      SetupCommand(Parses(Some(parsed), None), provider, Number(1), "us-east-1", "dev") ==
        Configured(arn, map[AwsProfileKey := "dev", ModelKey := arn, HaikuModelKey := "", RegionKey := "us-east-1"])
  {
    var filters: Dict := [("Team", "X")];
    var s := Summary(None, Some("team-x"), Some(arn), Some([ModelRef(modelArn)]));
    var tags := FromTags([Tag("Team", "X"), Tag("Owner", "ops")]);
    assert FirstPage([s], provider.defaultPageSize) == [s];
    FromTagsLookup([Tag("Team", "X"), Tag("Owner", "ops")], "Team");
    assert LastOfKey([Tag("Team", "X"), Tag("Owner", "ops")], 0);
    assert Matches(filters, tags);
    assert AllFetched([s], provider.tagsOf);
    assert Kept(filters, [s], provider.tagsOf) == [AppProfile(s, tags)];
    assert Found(filters, provider) == [AppProfile(s, tags)];
  }
}
