/** The `--tags` option as both commands read it (`parse_tags`): a JSON object first, then a
    Python dictionary literal for text written with single quotes. The two parsers are not
    part of this model; what each of them makes of the text is an input. */
module TagArgument {
  import opened Wrappers
  import opened TagMaps

  /** The outcome of `json.loads` and of `ast.literal_eval` on the option's text: a string
      dictionary, or None when the parser rejects the text. */
  datatype Parses = Parses(json: Option<Dict>, literal: Option<Dict>)

  /** The tags `parse_tags` yields, with the fallback working as admin_app.py has it; None
      is the exit with "Tags must be a valid JSON string". */
  function ParseTags(p: Parses): (r: Option<Dict>)
    ensures r.None? <==> p.json.None? && p.literal.None?
    ensures p.json.Some? ==> r == p.json
    ensures p.json.None? ==> r == p.literal
  {
    if p.json.Some? then p.json else p.literal
  }

  /** What the client's copy of `parse_tags` does as written. */
  datatype ClientParse = ParsedTags(tags: Dict) | NameErrorRaised

  /** client_app.py names `ast` in its fallback without importing it: any text that is not
      JSON raises `NameError`, which the `except` clause does not catch. */
  function ClientParseTagsAsWritten(p: Parses): (r: ClientParse)
    ensures r.NameErrorRaised? <==> p.json.None?
    ensures r.ParsedTags? ==> Some(r.tags) == ParseTags(p)
  {
    if p.json.Some? then ParsedTags(p.json.value) else NameErrorRaised
  }

  /** `--tags "{'Team': 'X'}"` is not JSON but is a dictionary literal: the admin reads it,
      the client as written crashes; and text neither parser takes crashes the client instead
      of exiting with the message. */
  lemma ClientFallbackCrashes()
    ensures var p := Parses(None, Some([("Team", "X")]));
      ClientParseTagsAsWritten(p) == NameErrorRaised && ParseTags(p) == Some([("Team", "X")])
    ensures ClientParseTagsAsWritten(Parses(None, None)) == NameErrorRaised && ParseTags(Parses(None, None)) == None
  { }
}
