/** The tool descriptors of `main()`: strings of the form
    `name:description[:api_key[:org_id[:project_name]]]` given with `--index`
    or `--extract-agent`, turned into records whose missing credentials fall
    back to the process-wide defaults. */
module Descriptors {
  import opened Wrappers
  import opened Colons

  /** Which option a descriptor came from, and so which factory it feeds. */
  datatype Kind = Index | ExtractAgent

  /** The process-wide defaults: the resolved API key (always a string by the
      time descriptors are parsed), `--org-id` and `--project-name`. */
  datatype Credentials = Credentials(apiKey: string, orgId: Option<string>, projectName: Option<string>)

  /** One parsed descriptor: the 5-tuple `main()` appends to `index_info` or
      `extract_agent_info`. */
  datatype ToolRecord = ToolRecord(
    name: string,
    description: string,
    apiKey: string,
    orgId: Option<string>,
    projectName: Option<string>)

  /** The `click.BadParameter` errors `main()` raises. */
  datatype ConfigError =
    | MissingApiKey
    | BadDescriptor(kind: Kind, descriptor: string)

  /** The start of a malformed-descriptor message, up to the quoted descriptor. */
  function ErrorPrefix(kind: Kind): string {
    match kind
    case Index => "Index '"
    case ExtractAgent => "Extract agent '"
  }

  /** What a malformed-descriptor message says after the quoted descriptor. */
  const FormatHint := " must be in the format name:description[:api_key:org_id:project_name]"

  /** The text of each error. A malformed-descriptor message quotes the
      offending descriptor right after its prefix. */
  function Message(e: ConfigError): (text: string)
    ensures e.BadDescriptor? ==>
      var p, d := ErrorPrefix(e.kind), e.descriptor;
      && |p| + |d| < |text|
      && text[..|p|] == p
      && text[|p|..|p| + |d|] == d
      && text[|p| + |d|] == '\''
      && text[|p| + |d| + 1..] == FormatHint
  {
    match e
    case MissingApiKey =>
      "API key not found. Please provide an API key or set the LLAMA_CLOUD_API_KEY environment variable."
    case BadDescriptor(kind, d) =>
      ErrorPrefix(kind) + d + ['\''] + FormatHint
  }

  /** `name` is the text of `s` before its first ':' and `description` the text
      between its first and second ':' (or the end of `s`). */
  predicate LeadingFields(s: string, name: string, description: string) {
    && ColonFree(name)
    && ColonFree(description)
    && |name| + 1 + |description| <= |s|
    && s[..|name|] == name
    && s[|name|] == ':'
    && s[|name| + 1..|name| + 1 + |description|] == description
    && (|name| + 1 + |description| == |s| || s[|name| + 1 + |description|] == ':')
  }

  /** Parse one descriptor: split on ':', reject fewer than two pieces, take
      pieces 0 and 1 as name and description, and let pieces 2, 3 and 4 (when
      present) override the API key, org id and project name. */
  function ParseDescriptor(kind: Kind, s: string, defaults: Credentials): (r: Result<ToolRecord, ConfigError>)
    ensures r.Failure? <==> ColonFree(s)
    ensures r.Failure? ==> r.error == BadDescriptor(kind, s)
    ensures r.Success? ==> LeadingFields(s, r.value.name, r.value.description)
  {
    var parts := Split(s);
    if |parts| < 2 then
      Failure(BadDescriptor(kind, s))
    else
      LeadingFieldsOfSplit(s);
      Success(ToolRecord(
        parts[0],
        parts[1],
        if |parts| > 2 then parts[2] else defaults.apiKey,
        if |parts| > 3 then Some(parts[3]) else defaults.orgId,
        if |parts| > 4 then Some(parts[4]) else defaults.projectName))
  }

  /** The first two pieces of a split are the leading fields of the string. */
  lemma LeadingFieldsOfSplit(s: string)
    requires |Split(s)| >= 2
    ensures LeadingFields(s, Split(s)[0], Split(s)[1])
  {
    JoinSplit(s);
    LeadingFieldsOfParts(Split(s));
  }

  /** The first two of at least two colon-free pieces are the leading fields of their join. */
  lemma LeadingFieldsOfParts(parts: seq<string>)
    requires |parts| >= 2
    requires ColonFree(parts[0]) && ColonFree(parts[1])
    ensures LeadingFields(Join(parts), parts[0], parts[1])
  {
    var name, description := parts[0], parts[1];
    var tail: string := if |parts| == 2 then [] else [':'] + Join(parts[2..]);
    assert Join(parts[1..]) == description + tail by {
      if |parts| > 2 {
        assert parts[1..] == [description] + parts[2..];
        JoinCons(description, parts[2..]);
      }
    }
    assert parts == [name] + parts[1..];
    JoinCons(name, parts[1..]);
    LeadingFieldsOfJoin(name, description, tail);
  }

  /** The leading fields of `name:description` followed by nothing or by ':'. */
  lemma LeadingFieldsOfJoin(name: string, description: string, tail: string)
    requires ColonFree(name) && ColonFree(description)
    requires tail == [] || tail[0] == ':'
    ensures LeadingFields(name + [':'] + description + tail, name, description)
  {
    var s := name + [':'] + description + tail;
    var n, m := |name|, |description|;
    assert s[..n] == name;
    assert s[n + 1..n + 1 + m] == description;
    assert n + 1 + m < |s| ==> s[n + 1 + m] == tail[0];
  }

  /** `name:description` takes all three credentials from the defaults. */
  lemma TwoFieldsUseDefaults(kind: Kind, name: string, description: string, defaults: Credentials)
    requires ColonFree(name) && ColonFree(description)
    ensures ParseDescriptor(kind, name + ":" + description, defaults)
         == Success(ToolRecord(name, description, defaults.apiKey, defaults.orgId, defaults.projectName))
  {
    var pieces := [name, description];
    assert Join(pieces) == name + ":" + description;
    SplitJoin(pieces);
  }

  /** A third field overrides only the API key. */
  lemma ThreeFieldsOverrideApiKey(kind: Kind, name: string, description: string, apiKey: string, defaults: Credentials)
    requires ColonFree(name) && ColonFree(description) && ColonFree(apiKey)
    ensures ParseDescriptor(kind, name + ":" + description + ":" + apiKey, defaults)
         == Success(ToolRecord(name, description, apiKey, defaults.orgId, defaults.projectName))
  {
    var pieces := [name, description, apiKey];
    JoinCons(description, [apiKey]);
    JoinCons(name, [description, apiKey]);
    assert Join(pieces) == name + ":" + description + ":" + apiKey;
    SplitJoin(pieces);
  }

  /** A fourth field overrides the org id as well; the project name stays the default. */
  lemma FourFieldsOverrideApiKeyAndOrg(
    kind: Kind, name: string, description: string, apiKey: string, orgId: string, defaults: Credentials)
    requires ColonFree(name) && ColonFree(description) && ColonFree(apiKey) && ColonFree(orgId)
    ensures ParseDescriptor(kind, name + ":" + description + ":" + apiKey + ":" + orgId, defaults)
         == Success(ToolRecord(name, description, apiKey, Some(orgId), defaults.projectName))
  {
    var pieces := [name, description, apiKey, orgId];
    JoinCons(apiKey, [orgId]);
    JoinCons(description, [apiKey, orgId]);
    JoinCons(name, [description, apiKey, orgId]);
    assert Join(pieces) == name + ":" + description + ":" + apiKey + ":" + orgId;
    SplitJoin(pieces);
  }

  /** A fifth field overrides the project name too. */
  lemma FiveFieldsOverrideAll(
    kind: Kind, name: string, description: string, apiKey: string, orgId: string, projectName: string,
    defaults: Credentials)
    requires ColonFree(name) && ColonFree(description) && ColonFree(apiKey)
    requires ColonFree(orgId) && ColonFree(projectName)
    ensures ParseDescriptor(kind, name + ":" + description + ":" + apiKey + ":" + orgId + ":" + projectName, defaults)
         == Success(ToolRecord(name, description, apiKey, Some(orgId), Some(projectName)))
  {
    var pieces := [name, description, apiKey, orgId, projectName];
    JoinCons(orgId, [projectName]);
    JoinCons(apiKey, [orgId, projectName]);
    JoinCons(description, [apiKey, orgId, projectName]);
    JoinCons(name, [description, apiKey, orgId, projectName]);
    assert Join(pieces) == name + ":" + description + ":" + apiKey + ":" + orgId + ":" + projectName;
    SplitJoin(pieces);
  }

  /** Once a descriptor has five fields, anything appended after another ':'
      leaves the parsed record unchanged. */
  lemma {:induction false} TrailingFieldsIgnored(kind: Kind, s: string, t: string, defaults: Credentials)
    requires ColonCount(s) >= 4
    ensures ParseDescriptor(kind, s + ":" + t, defaults) == ParseDescriptor(kind, s, defaults)
  {
    SplitAppend(s, t);
    var parts, longer := Split(s), Split(s + ":" + t);
    assert longer[..|parts|] == parts;
    assert longer[0] == parts[0] && longer[1] == parts[1] && longer[2] == parts[2];
    assert longer[3] == parts[3] && longer[4] == parts[4];
  }

  /** An empty field still overrides: in `a:b::O` the API key becomes "". */
  lemma EmptyFieldOverrides(defaults: Credentials)
    ensures ParseDescriptor(Index, "a:b::O", defaults)
         == Success(ToolRecord("a", "b", "", Some("O"), defaults.projectName))
  {
    FourFieldsOverrideApiKeyAndOrg(Index, "a", "b", "", "O", defaults);
    assert "a" + ":" + "b" + ":" + "" + ":" + "O" == "a:b::O";
  }

  /** Worked example: `docs:Search my docs` takes every credential from the defaults. */
  lemma ExampleDefaults()
    ensures ParseDescriptor(Index, "docs:Search my docs", Credentials("K1", Some("O1"), Some("P1")))
         == Success(ToolRecord("docs", "Search my docs", "K1", Some("O1"), Some("P1")))
  {
    assert ColonFree("docs") && ColonFree("Search my docs");
    assert "docs" + ":" + "Search my docs" == "docs:Search my docs";
    TwoFieldsUseDefaults(Index, "docs", "Search my docs", Credentials("K1", Some("O1"), Some("P1")));
  }

  /** Worked example: `docs:Search my docs:K2:O2:P2` replaces every default. */
  lemma ExampleOverrides()
    ensures ParseDescriptor(Index, "docs:Search my docs:K2:O2:P2", Credentials("K1", Some("O1"), Some("P1")))
         == Success(ToolRecord("docs", "Search my docs", "K2", Some("O2"), Some("P2")))
  {
    var s := "docs:Search my docs:K2:O2:P2";
    assert "docs" + ":" + "Search my docs" + ":" + "K2" + ":" + "O2" + ":" + "P2" == s by {
      assert "docs" + ":" + "Search my docs" == "docs:Search my docs";
      assert "docs:Search my docs" + ":" + "K2" == "docs:Search my docs:K2";
      assert "docs:Search my docs:K2" + ":" + "O2" == "docs:Search my docs:K2:O2";
    }
    FiveFieldsOverrideAll(Index, "docs", "Search my docs", "K2", "O2", "P2", Credentials("K1", Some("O1"), Some("P1")));
  }

  /** Worked example: `badinput` has no ':' and is refused, naming itself. */
  lemma ExampleRejected()
    ensures ParseDescriptor(Index, "badinput", Credentials("K1", Some("O1"), Some("P1")))
         == Failure(BadDescriptor(Index, "badinput"))
  {
  }

  /** The descriptor at `i` is the first one without a ':'. */
  predicate FirstMalformed(descriptors: seq<string>, i: int) {
    && 0 <= i < |descriptors|
    && ColonFree(descriptors[i])
    && forall j | 0 <= j < i :: !ColonFree(descriptors[j])
  }

  /** Every descriptor has at least one ':'. */
  predicate AllWellFormed(descriptors: seq<string>) {
    forall i | 0 <= i < |descriptors| :: !ColonFree(descriptors[i])
  }

  /** The parsing loop of `main()`: parse each descriptor in order, appending
      its record, and stop at the first malformed one. */
  method ParseDescriptors(kind: Kind, descriptors: seq<string>, defaults: Credentials)
    returns (r: Result<seq<ToolRecord>, ConfigError>)
    ensures r.Success? <==> AllWellFormed(descriptors)
    ensures r.Success? ==> |r.value| == |descriptors|
    ensures r.Success? ==> forall i | 0 <= i < |descriptors| ::
              ParseDescriptor(kind, descriptors[i], defaults) == Success(r.value[i])
    ensures r.Failure? ==> exists i :: FirstMalformed(descriptors, i) && r.error == BadDescriptor(kind, descriptors[i])
  {
    var records := [];
    for i := 0 to |descriptors|
      invariant |records| == i
      invariant forall j | 0 <= j < i :: !ColonFree(descriptors[j])
      invariant forall j | 0 <= j < i :: ParseDescriptor(kind, descriptors[j], defaults) == Success(records[j])
    {
      var parsed := ParseDescriptor(kind, descriptors[i], defaults);
      if parsed.Failure? {
        assert FirstMalformed(descriptors, i);
        return Failure(parsed.error);
      }
      records := records + [parsed.value];
    }
    return Success(records);
  }
}
