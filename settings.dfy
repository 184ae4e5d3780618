/**
 * The configuration checks of `Settings` (config/settings.py): the three
 * required API keys read from the environment, the check that reports the
 * missing ones, and the two dashboard URLs.
 */
module Settings {
  import opened Wrappers
  import opened Text

  /** The environment as the process sees it: a variable that is not set is
      absent from the map. */
  type Env = map<string, string>

  /** The keys `validate_config` requires, in the order it checks them. */
  const RequiredKeys: seq<string> := ["GEMINI_API_KEY", "NOTION_API_KEY", "LANGCHAIN_API_KEY"]

  const LangchainProject: string := "proyecto-final-agentes"
  const NotionDatabaseId: string := "28815eefe92680389583cff88068af9e"

  const LangsmithPrefix: string := "https://smith.langchain.com/projects/"
  const NotionPrefix: string := "https://notion.so/"

  /** Python truthiness of the attribute: an unset variable reads as `None`
      and an empty value as `""`, and both are false. */
  predicate IsSet(env: Env, key: string) {
    key in env && env[key] != ""
  }

  /** The keys `validate_config` reports, keeping the order of `keys`. */
  function Missing(env: Env, keys: seq<string>): seq<string> {
    if keys == [] then []
    else (if IsSet(env, keys[0]) then [] else [keys[0]]) + Missing(env, keys[1..])
  }

  /** A key is reported exactly when it is required and not set; nothing
      else is reported. */
  lemma {:induction false} MissingMembers(env: Env, keys: seq<string>)
    ensures forall k :: k in Missing(env, keys) <==> k in keys && !IsSet(env, k)
    ensures |Missing(env, keys)| <= |keys|
    decreases |keys|
  {
    if keys != [] {
      MissingMembers(env, keys[1..]);
      assert keys == [keys[0]] + keys[1..];
    }
  }

  /** The missing keys of the three required ones. */
  function MissingKeys(env: Env): seq<string> {
    Missing(env, RequiredKeys)
  }

  /** `', '.join(keys)` */
  function Join(keys: seq<string>, sep: string): string {
    if keys == [] then ""
    else if |keys| == 1 then keys[0]
    else keys[0] + sep + Join(keys[1..], sep)
  }

  /** The text of the error `validate_config` raises. */
  function MissingKeysMessage(missing: seq<string>): string {
    "Faltan las siguientes API keys: " + Join(missing, ", ")
  }

  /** The `for key in required_keys` loop of validate_config. */
  method CollectMissing(env: Env, keys: seq<string>) returns (missingKeys: seq<string>)
    ensures missingKeys == Missing(env, keys)
  {
    missingKeys := [];
    for i := 0 to |keys|
      invariant missingKeys + Missing(env, keys[i..]) == Missing(env, keys)
    {
      ghost var rest := keys[i..];
      assert rest[0] == keys[i] && rest[1..] == keys[i + 1..];
      if !IsSet(env, keys[i]) {
        assert Missing(env, rest) == [keys[i]] + Missing(env, keys[i + 1..]);
        assert missingKeys + ([keys[i]] + Missing(env, keys[i + 1..]))
            == (missingKeys + [keys[i]]) + Missing(env, keys[i + 1..]);
        missingKeys := missingKeys + [keys[i]];
      } else {
        assert Missing(env, rest) == [] + Missing(env, keys[i + 1..]);
        assert [] + Missing(env, keys[i + 1..]) == Missing(env, keys[i + 1..]);
      }
    }
    assert keys[|keys|..] == [];
  }

  /** validate_config: collect the required keys whose value is unset or
      empty, in order; raise with their names when there are any, else
      return True. */
  method ValidateConfig(env: Env) returns (r: Result<bool, string>)
    ensures r.Ok? <==> MissingKeys(env) == []
    ensures r.Ok? ==> r.value
    ensures r.Err? ==> r.error == MissingKeysMessage(MissingKeys(env))
  {
    var missingKeys := CollectMissing(env, RequiredKeys);
    if missingKeys != [] {
      return Err(MissingKeysMessage(missingKeys));
    }
    return Ok(true);
  }

  /** The configuration is valid exactly when all three keys are set. */
  lemma {:induction false} ValidIffAllSet(env: Env)
    ensures MissingKeys(env) == [] <==>
      IsSet(env, "GEMINI_API_KEY") && IsSet(env, "NOTION_API_KEY") && IsSet(env, "LANGCHAIN_API_KEY")
  {
    assert RequiredKeys[0] == "GEMINI_API_KEY" && RequiredKeys[1] == "NOTION_API_KEY";
    assert RequiredKeys[2] == "LANGCHAIN_API_KEY";
    MissingMembers(env, RequiredKeys);
    if MissingKeys(env) == [] {
      assert forall i :: 0 <= i < 3 ==> RequiredKeys[i] in RequiredKeys;
    } else {
      var k := MissingKeys(env)[0];
      assert k in MissingKeys(env);
    }
  }

  /** An empty value counts as missing: with every key set to "" all three
      are reported, in the order GEMINI, NOTION, LANGCHAIN. */
  lemma EmptyValuesAreMissing()
    ensures MissingKeys(map["GEMINI_API_KEY" := "", "NOTION_API_KEY" := "", "LANGCHAIN_API_KEY" := ""]) == RequiredKeys
  {
  }

  /** Only the unset keys are reported, in the fixed order. */
  lemma OnlyNotionMissing()
    ensures MissingKeys(map["GEMINI_API_KEY" := "g", "LANGCHAIN_API_KEY" := "l"]) == ["NOTION_API_KEY"]
  {
  }

  /** Every key handed to `Join` appears in the joined text. */
  lemma {:induction false} JoinNamesEveryKey(keys: seq<string>, sep: string, i: nat)
    requires i < |keys|
    ensures exists p: nat :: OccursAt(Join(keys, sep), keys[i], p)
    decreases |keys|
  {
    if |keys| == 1 {
      assert OccursAt(Join(keys, sep), keys[i], 0);
    } else if i == 0 {
      OccursInContext([], keys[0], sep + Join(keys[1..], sep), keys[0], 0);
      assert [] + keys[0] + (sep + Join(keys[1..], sep)) == Join(keys, sep);
    } else {
      JoinNamesEveryKey(keys[1..], sep, i - 1);
      var p: nat :| OccursAt(Join(keys[1..], sep), keys[1..][i - 1], p);
      OccursInContext(keys[0] + sep, Join(keys[1..], sep), [], keys[i], p);
      assert keys[0] + sep + Join(keys[1..], sep) + [] == Join(keys, sep);
    }
  }

  /** The raised message names every missing key. */
  lemma MessageNamesMissingKeys(missing: seq<string>, i: nat)
    requires i < |missing|
    ensures Contains(MissingKeysMessage(missing), missing[i])
  {
    JoinNamesEveryKey(missing, ", ", i);
    var p: nat :| OccursAt(Join(missing, ", "), missing[i], p);
    var prefix := "Faltan las siguientes API keys: ";
    OccursInContext(prefix, Join(missing, ", "), [], missing[i], p);
    assert prefix + Join(missing, ", ") + [] == MissingKeysMessage(missing);
    ContainsWitness(MissingKeysMessage(missing), missing[i], |prefix| + p);
  }

  /** A URL made from a prefix and a name. */
  function UrlFor(prefix: string, name: string): (r: string)
    ensures |r| == |prefix| + |name|
  {
    prefix + name
  }

  /** Stripping a known prefix off a URL. */
  function StripPrefix(prefix: string, url: string): (r: Option<string>)
    ensures r.Some? <==> |prefix| <= |url| && url[..|prefix|] == prefix
    ensures r.Some? ==> prefix + r.value == url
  {
    if |prefix| <= |url| && url[..|prefix|] == prefix then Some(url[|prefix|..]) else None
  }

  /** The name can be read back from the URL. */
  lemma UrlRoundTrip(prefix: string, name: string)
    ensures StripPrefix(prefix, UrlFor(prefix, name)) == Some(name)
  {
    assert UrlFor(prefix, name)[..|prefix|] == prefix;
  }

  /** get_langsmith_url: the project page. */
  function GetLangsmithUrl(): (r: string)
    ensures StripPrefix(LangsmithPrefix, r) == Some(LangchainProject)
  {
    UrlRoundTrip(LangsmithPrefix, LangchainProject);
    UrlFor(LangsmithPrefix, LangchainProject)
  }

  /** get_notion_url: the database page. */
  function GetNotionUrl(): (r: string)
    ensures StripPrefix(NotionPrefix, r) == Some(NotionDatabaseId)
  {
    UrlRoundTrip(NotionPrefix, NotionDatabaseId);
    UrlFor(NotionPrefix, NotionDatabaseId)
  }
}
