# Claude Code on AWS onboarding guide — selection logic

This project models the decision logic of the two command-line apps in the
onboarding guide for running Claude Code against Amazon Bedrock:

- the **client app** (`setup` command) finds the application inference
  profiles whose resource tags carry every key/value pair the developer
  passed with `--tags`, shows them as a numbered list, lets the developer pick
  one, and derives the Claude Code settings from the chosen profile's ARN,
  the region and the AWS profile name;
- the **admin app** (`create-aip` command) lists the system-defined Bedrock
  inference profiles, keeps the current Claude families (the id contains
  `claude`, case-insensitively, and none of the legacy markers `3-5`,
  `claude-3-haiku`, `claude-3-sonnet`, `claude-3-opus`), sorts them by id,
  lets the administrator pick one, and builds the `create_inference_profile`
  request that copies from it and carries the given tags.

Bedrock is a value (`Bedrock.Provider`): the two listing responses, the
tag-listing response for each ARN, and the page size the service uses when
no `maxResults` is sent. A prompt answer is a value too (`Selection.Answer`):
a whole number, or text that `int()` rejects. A command ends in an outcome
datatype: an exit with its reason, or the configured settings / the created
profile.

Modules: `Wrappers` (Option), `Strings` (substring test, ASCII lower-casing,
last path segment, Python string order, `", "` join and split), `TagMaps`
(Python dicts as insertion-ordered association lists with unique keys, and
the `{tag['key']: tag['value'] …}` comprehension), `Bedrock` (the response
shapes), `Discovery` (the tag-match filter shared by both apps), `Selection`
(1-based numbered choice), `TagArgument` (the `--tags` parser), `ClientApp`,
`AdminApp`, and two concrete runs, `ClientScenario` and `AdminScenario`.

Three behaviours of the code worth knowing, all of which the model follows:

- A tag-listing failure for any one profile ends the whole listing with an
  empty result. The failure is a `ClientError` caught around the entire loop,
  so the profiles kept so far are dropped too.
- Only the first page of each listing is read; `nextToken` is never followed.
  The admin app's tag-match listing asks for `maxResults=250`; the client app
  and the Claude listing use the service default (`Provider.defaultPageSize`).
- The client app's fallback for `--tags` text that is not JSON raises a
  `NameError`, because `ast` is not imported there (see Findings). The
  modelled `setup` command (`ClientApp.SetupCommand`, `ClientApp.ClientSetup`)
  crashes on such text; `ClientApp.IntendedSetupCommand` is the command with
  the parser working as the admin app's does.

The tag-match loop, the discovery loop and the display loop become `method`s
with loop invariants. Each is proved equal to a specification function
(`Matches`, `Discovered`, the row sequence), and the properties are proved
about those functions as lemmas. The rest of the logic is expression-shaped
and becomes functions and lemmas.

## Model

| member | source | states |
|---|---|---|
| Discovery.MatchesFilters | src/claude_code_og/commands/client_app.py:55-59 | the early-exit loop over the filters answers true exactly when every filter key is a tag key with an equal value (`Matches`) |
| Discovery.MatchesIffSubDict | src/claude_code_og/commands/client_app.py:55-61 | a profile matches iff every filter pair is a pair of its tag dict, i.e. the filter is a sub-dictionary of its tags |
| Discovery.ExtraTagsNeverDisqualify | src/claude_code_og/commands/client_app.py:55-61 | two tag dicts that agree on every filter key both match or both fail, whatever other tags they carry, so adding or changing tags whose keys are not filter keys never changes whether a profile matches |
| Discovery.EmptyFilterKeepsAll | src/claude_code_og/commands/client_app.py:55-64 | with no filters every listed profile is kept, in order, each with its own tag dict |
| Discovery.InspectProfile | src/claude_code_og/commands/client_app.py:46-64 | one pass of the loop body: the fetch fails exactly when the provider reports failure, and otherwise the summary is kept, with its tag dict from the comprehension, exactly when that dict matches |
| Discovery.FilterByTags | src/claude_code_og/commands/client_app.py:45-66 | the discovery loop returns exactly `Discovered`: the matching summaries with their tags when every tag fetch succeeds, and [] when any fetch fails |
| Discovery.KeptIsMatchingSubsequence | src/claude_code_og/commands/client_app.py:45-64 | the result is the listing's matching profiles in listing order, at strictly increasing positions, each with its summary unchanged and its own tag dict, and no matching profile is skipped |
| Discovery.DiscoveredMembership | src/claude_code_og/commands/client_app.py:41-70 | a profile is in the result iff all fetches succeeded and it is a listed summary with its tag dict that matches the filters |
| TagMaps.Insert | src/claude_code_og/commands/client_app.py:52 | dict assignment: the key now maps to the new value, other keys keep theirs, an existing key keeps its position, a new key is appended |
| TagMaps.FromTagsLookup | src/claude_code_og/commands/client_app.py:52 | the comprehension's dict has a key iff some tag has that key, and then maps it to the value of the last tag with that key |
| ClientApp.ListApplicationInferenceProfiles | src/claude_code_og/commands/client_app.py:38-70 | the client listing is the discovery result on the first page of the service's default size, or [] when listing fails |
| Strings.LastSegmentIsFinalPiece | src/claude_code_og/commands/client_app.py:95 | the last segment is a suffix without '/', preceded by '/' when the text has one, and is the whole text when it has none |
| ClientApp.ModelId | src/claude_code_og/commands/client_app.py:95 | the model id is the text after the last '/' of the model source, or the whole source when it has no '/' |
| ClientApp.ModelIdOfArn | src/claude_code_og/commands/client_app.py:94-95 | for a model ARN `prefix/name` with no '/' in name, the displayed model id is `name` |
| ClientApp.DisplayInferenceProfiles | src/claude_code_og/commands/client_app.py:80-102 | nothing is shown for an empty list; otherwise row i is numbered i+1 with the name and model id of profile i, and the returned data is the input list unchanged; an empty `models` list stops the display at that position |
| ClientApp.DisplayProfileDetails | src/claude_code_og/commands/client_app.py:105-140 | details exist iff the profile has a model source to show; they carry the profile's ARN ("Unknown" when absent) and its tag dict, and the model "Unknown" when the summary has no `models` |
| ClientApp.RenderBindings | src/claude_code_og/commands/client_app.py:168-173 | the template sees exactly four keys: AWS_PROFILE, ANTHROPIC_MODEL = the profile ARN, ANTHROPIC_DEFAULT_HAIKU_MODEL = "", AWS_REGION |
| ClientApp.ClientSetup | src/claude_code_og/commands/client_app.py:214-254 | the setup flow, with the client's own tag parser, ends in exactly the outcome `SetupCommand` gives for the tag readings, the provider and the answers |
| ClientApp.SetupCommandAsWritten | src/claude_code_og/commands/client_app.py:186-197 | on JSON text the written and the intended command agree; on any other text the written one crashes with NameError, while the intended one reads a dictionary literal and exits with the "valid JSON" message iff neither reading works |
| ClientApp.ChooseProfile | src/claude_code_og/commands/client_app.py:234-244 | after the table, a non-number exits with "invalid input", a number outside 1..count exits with "invalid choice", and a number in range configures the ARN of the profile at number-1 (`ChoiceOutcome`) |
| ClientApp.SetupOutcomeCases | src/claude_code_og/commands/client_app.py:217-244 | setup exits on empty tags, exits when nothing matches, crashes when a found profile has an empty `models` list, exits on non-numeric input or a number outside 1..count, and configures exactly when the answer chooses a found profile |
| ClientApp.ConfiguredProfileMatches | src/claude_code_og/commands/client_app.py:234-254 | a configured setup uses the ARN of a profile that was listed and whose tags carry every requested tag |
| ClientScenario.SetupSingleProfile | src/claude_code_og/commands/client_app.py:214-254 | one listed profile tagged Team=X and Owner=ops, `--tags` Team=X and answer 1 configure that profile's ARN with the four bindings |
| Selection.ChooseInRange | src/claude_code_og/commands/client_app.py:234-244 | a choice is made iff the answer is a number in 1..count, and it is then the item at position number-1 |
| ClientApp.ShownNumberSelects | src/claude_code_og/commands/client_app.py:97 | answering the number printed in the row of profile i selects profile i, and the run then binds that profile's ARN |
| TagArgument.ClientParseTagsAsWritten | src/claude_code_og/commands/client_app.py:186-197 | the client parser returns the JSON dict when the text is JSON, and otherwise raises NameError whatever the text |
| TagArgument.ClientFallbackCrashes | src/claude_code_og/commands/client_app.py:190-196 | single-quoted dict text, which the admin parser accepts, makes the client parser raise NameError |
| TagArgument.ParseTags | src/claude-code-og/commands/admin_app.py:148-159 | the JSON reading wins when the text is JSON, the literal reading is used otherwise, and parsing fails iff the text is neither |
| AdminApp.ListApplicationInferenceProfiles | src/claude-code-og/commands/admin_app.py:33-65 | the admin listing is the discovery result on the first 250 profiles, and every profile it returns matches the filters |
| Bedrock.FirstPage | src/claude-code-og/commands/admin_app.py:38 | a page is the first min(maxResults, total) profiles of the catalog |
| Strings.ContainsIffOccurs | src/claude-code-og/commands/admin_app.py:85-87 | Python's `in` on strings: the pattern occurs iff it appears at some position of the text |
| AdminApp.FilterClaudeCounts | src/claude-code-og/commands/admin_app.py:83-88 | each summary occurs in the filtered list as often as in the listing when its id is a current Claude id, and not at all otherwise |
| AdminApp.SortByIdCorrect | src/claude-code-og/commands/admin_app.py:90 | the sort returns the same summaries with the same multiplicities, ordered by id |
| AdminApp.SortByIdStable | src/claude-code-og/commands/admin_app.py:90 | summaries with equal ids keep their listing order, as Python's `sorted` promises |
| AdminApp.FilterClaudeWithId | src/claude-code-og/commands/admin_app.py:83-88 | the comprehension keeps all summaries with a passing id, in page order, and none with a failing id |
| AdminApp.OfferedAreCurrent | src/claude-code-og/commands/admin_app.py:83-88 | every profile offered for selection has an id, and that id passes the current-Claude filter |
| AdminApp.ClaudeProfilesCorrect | src/claude-code-og/commands/admin_app.py:78-96 | the offered list is sorted by id, holds each current Claude summary of the first page exactly as often as listed and nothing else, keeps equal ids in listing order, and every entry has an id that passes the filter |
| AdminApp.LegacyMarkerExcludes | src/claude-code-og/commands/admin_app.py:86-87 | an id containing a legacy marker is never offered |
| AdminApp.CaseInsensitive | src/claude-code-og/commands/admin_app.py:85-86 | two ids with the same lower-case form are either both offered or both excluded |
| AdminApp.PromptForInferenceProfile | src/claude-code-og/commands/admin_app.py:130-146 | the selection is None when nothing is offered, when the number is out of range or the text is not a number, and is otherwise the offered entry at number-1 |
| AdminApp.AwsTags | src/claude-code-og/commands/admin_app.py:187 | one {key, value} pair per dict entry, in the dict's order |
| AdminApp.AwsTagsRoundTrip | src/claude-code-og/commands/admin_app.py:187 | reading the sent tag list back with the discovery comprehension gives the original dict |
| AdminApp.TagSummaryRoundTrip | src/claude-code-og/commands/admin_app.py:225 | when keys hold no ',' or '=' and values no ',', splitting the `k=v, …` summary recovers the dict |
| AdminApp.CreateProfile | src/claude-code-og/commands/admin_app.py:179-235 | empty tags abort first, no selection aborts next, otherwise the request names the profile, describes it as "Application Inference Profile <name>", copies from the chosen summary's ARN and sends the tags; it is created iff the service accepts it |
| AdminApp.CreateCommand | src/claude-code-og/commands/admin_app.py:179-184 | the command stops with invalid tag text iff the text is neither JSON nor a dictionary literal |
| AdminApp.CreatedProfileIsFound | src/claude-code-og/commands/admin_app.py:187-211 | a profile created with tags T and then listed matches the client's search for T |
| AdminScenario.CreateTestProfile | src/claude-code-og/commands/admin_app.py:179-211 | name "test-profile" with tags Team=X, DeveloperId=d1 and answer 1 on a one-profile listing sends exactly the expected request |

## Left out

- Calls to boto3 (client creation, credentials, network) are not modelled; the service's responses are inputs.
- Rich console output (tables, panels, colours, status spinners) is not modelled. Only the numbering, names and model ids a table shows are kept.
- Prompt text parsing is abstracted: `int()` on the answer becomes `Selection.Answer`. The prompt defaults ("1", "us-east-1") are the caller's choice of answer.
- `json.loads` and `ast.literal_eval` are not modelled. Their readings of the `--tags` text are inputs (`TagArgument.Parses`), and the model assumes they give string-to-string dicts.
- Writing `~/.claude/example.settings.json` (directory creation, reading the template, Jinja rendering, I/O errors) is not modelled. Only the map handed to the template is, as `ClientApp.RenderBindings`.
- The admin app's `display_inference_profiles` table is not modelled, since it only prints.
- Uncaught exceptions other than the two in `ClientApp.Crash` are not modelled: botocore's `ParamValidationError` for a summary without an ARN (at tag listing, and as `copyFrom`), and `KeyError` for a tag without `key`/`value` or a `models` element without `modelArn` (`Bedrock.ModelRef` always has one).
- AdminApp.CreateProfile: for a chosen summary without `inferenceProfileArn` it builds a request with no `copyFrom` and goes on to `Created`/`CreateRejected`, where botocore would raise `ParamValidationError` before sending (admin_app.py lines 199 and 209).
- `cli.py` (the typer wiring of the two apps) is not part of this model.
- The summaries keep only the fields the logic reads (id, name, ARN, models). `Bedrock.AppProfile` adds the tag dict beside the summary rather than as a `tags` member in it.
- AdminApp.IsCurrentClaude: lower-cases ASCII letters only, whereas Python's `str.lower()` also folds non-ASCII letters; ids are ASCII in practice.
- ClientApp.DisplayInferenceProfiles: does not model the crash on an empty `models` list as an exception, and ends with `NoModelAt` instead.
- AdminScenario.CreateTestProfile: takes "the listed id is a current Claude id" as a hypothesis instead of proving it for a concrete id literal.

## Findings

| source | as written | input that shows it | evidently intended | confidence | as-written member | corrected member |
|---|---|---|---|---|---|---|
| src/claude_code_og/commands/client_app.py:186-197 | the fallback for text that is not JSON calls `ast.literal_eval`, but the module never imports `ast`, so any non-JSON `--tags` text raises `NameError` instead of being parsed or rejected with exit code 1 | `setup --tags "{'Team': 'X'}"` | parse single-quoted dict text as a Python literal and exit with code 1 when that fails too, as the admin app's parser does | high; not executed | TagArgument.ClientParseTagsAsWritten | TagArgument.ParseTags |
