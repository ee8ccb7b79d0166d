/**
 * `I18nServiceImpl`: merges the translations of the configured sources at start-up, then
 * answers the languages, the translations of one language, and translated messages.
 */
module I18nService {
  import opened Wrappers
  import opened Domain
  import opened CoreLib
  import opened Registry
  import opened I18nMergeCollector

  /** The first loader that supports a source type, if any. */
  function LoaderFor(loaders: seq<I18nSourceLoader>, kind: string): (r: Option<I18nSourceLoader>)
    ensures r.Some? ==> r.value in loaders && r.value.supports(kind)
    ensures r.None? ==> forall j :: 0 <= j < |loaders| ==> !loaders[j].supports(kind)
  {
    var p := (loader: I18nSourceLoader) => loader.supports(kind);
    FirstMatchIsFirst(loaders, p);
    match FirstMatch(loaders, p)
    case None => None
    case Some(i) => Some(loaders[i])
  }

  /** The maps `run` collects: one per source type, in `orders` order, types without a loader skipped. */
  function Sources(orders: seq<string>, loaders: seq<I18nSourceLoader>): (r: seq<Translations>)
    ensures |r| <= |orders|
  {
    if |orders| == 0 then []
    else
      var kind := orders[|orders| - 1];
      Sources(orders[..|orders| - 1], loaders) +
        match LoaderFor(loaders, kind)
        case None => []
        case Some(loader) => [loader.load]
  }

  /** A source type without a loader adds nothing. */
  lemma SkipsUnsupported(orders: seq<string>, loaders: seq<I18nSourceLoader>, kind: string)
    requires LoaderFor(loaders, kind).None?
    ensures Sources(orders + [kind], loaders) == Sources(orders, loaders)
  {
    assert (orders + [kind])[..|orders|] == orders;
  }

  /** One more source type adds the map of its loader, if it has one, at the end. */
  lemma SourcesSnoc(orders: seq<string>, loaders: seq<I18nSourceLoader>, kind: string)
    ensures Sources(orders + [kind], loaders) ==
      Sources(orders, loaders) + match LoaderFor(loaders, kind) case None => [] case Some(loader) => [loader.load]
  {
    assert (orders + [kind])[..|orders|] == orders;
  }

  /**
   * A source type listed after the others wins every key it has; the other keys keep the
   * template the earlier types gave them.
   */
  lemma LaterSourceWins(orders: seq<string>, loaders: seq<I18nSourceLoader>, kind: string, language: string, key: string)
    ensures var merged := Collect(Sources(orders + [kind], loaders));
      var found := LoaderFor(loaders, kind);
      Lookup(merged, language, key) ==
        if found.Some? && Lookup(found.value.load, language, key).Some? then Lookup(found.value.load, language, key)
        else Lookup(Collect(Sources(orders, loaders)), language, key)
  {
    SourcesSnoc(orders, loaders, kind);
    var found := LoaderFor(loaders, kind);
    if found.None? {
      assert Sources(orders + [kind], loaders) == Sources(orders, loaders) + [];
      assert Sources(orders, loaders) + [] == Sources(orders, loaders);
    } else {
      var earlier := Sources(orders, loaders);
      var all := earlier + [found.value.load];
      assert all[..|earlier|] == earlier;
      assert Sources(orders + [kind], loaders) == all;
      assert Collect(all) == DeepMerge(Collect(earlier), found.value.load);
      DeepMergeLookup(Collect(earlier), found.value.load);
    }
  }

  /** The message answered for a key the language does not have. */
  function UnknownKey(key: string, language: string): string {
    "Unknown key \"" + key + "\" for language \"" + language + "\"."
  }

  /** The index of the first '}' at or after `from`. */
  function CloseBrace(t: string, from: nat): (r: Option<nat>)
    ensures r.Some? ==> from <= r.value < |t| && t[r.value] == '}'
    ensures r.Some? ==> forall i :: from <= i < r.value ==> t[i] != '}'
    ensures r.None? ==> forall i :: from <= i < |t| ==> t[i] != '}'
    decreases |t| - from
  {
    if from >= |t| then None
    else if t[from] == '}' then Some(from)
    else CloseBrace(t, from + 1)
  }

  /**
   * `StringSubstitutor(variables, "{", "}").replace(template)`, simplified: each `{name}` with
   * a known name is replaced by its value; unknown placeholders and the text around them stay.
   */
  function Substitute(template: string, variables: map<string, string>): string
    decreases |template|
  {
    if |template| == 0 then ""
    else if template[0] != '{' then [template[0]] + Substitute(template[1..], variables)
    else match CloseBrace(template, 1)
      case None => template
      case Some(j) =>
        var name := template[1..j];
        (if name in variables then variables[name] else template[..j + 1]) + Substitute(template[j + 1..], variables)
  }

  /** A template without placeholders is answered as it is. */
  lemma {:induction false} SubstitutePlain(template: string, variables: map<string, string>)
    requires forall i :: 0 <= i < |template| ==> template[i] != '{'
    ensures Substitute(template, variables) == template
  {
    if |template| > 0 {
      SubstitutePlain(template[1..], variables);
    }
  }

  /** Plain text, then one known placeholder: the text is kept and the placeholder replaced. */
  lemma {:induction false} SubstituteKnown(text: string, name: string, rest: string, variables: map<string, string>)
    requires forall i :: 0 <= i < |text| ==> text[i] != '{'
    requires forall i :: 0 <= i < |name| ==> name[i] != '}'
    requires name in variables
    ensures Substitute(text + "{" + name + "}" + rest, variables) == text + variables[name] + Substitute(rest, variables)
  {
    var t := text + "{" + name + "}" + rest;
    if |text| > 0 {
      assert t[1..] == text[1..] + "{" + name + "}" + rest;
      SubstituteKnown(text[1..], name, rest, variables);
      assert text == [text[0]] + text[1..];
    } else {
      assert t == "{" + name + "}" + rest;
      SubstituteLeading(name, rest, variables);
    }
  }

  /** A template that opens with a known placeholder. */
  lemma SubstituteLeading(name: string, rest: string, variables: map<string, string>)
    requires forall i :: 0 <= i < |name| ==> name[i] != '}'
    requires name in variables
    ensures Substitute("{" + name + "}" + rest, variables) == variables[name] + Substitute(rest, variables)
  {
    var t := "{" + name + "}" + rest;
    var j := |name| + 1;
    assert t[j] == '}';
    assert forall i :: 1 <= i < j ==> t[i] == name[i - 1];
    assert CloseBrace(t, 1) == Some(j);
    assert t[1..j] == name;
    assert t[j + 1..] == rest;
  }

  /** The placeholders of a message: its context, then the language and the key put over it. */
  function Variables(language: string, message: I18nMessage): (r: map<string, string>)
    ensures r.Keys == message.context.Keys + {"I18N_LANGUAGE", "I18N_KEY"}
    ensures r["I18N_LANGUAGE"] == language && r["I18N_KEY"] == message.key
    ensures forall name :: name in message.context && name != "I18N_LANGUAGE" && name != "I18N_KEY" ==>
      r[name] == message.context[name]
  {
    message.context["I18N_LANGUAGE" := language]["I18N_KEY" := message.key]
  }

  /** The service, with the languages `run` merged. */
  class Service {
    const orders: seq<string>
    const loaders: seq<I18nSourceLoader>
    var languages: Translations

    constructor (orders: seq<string>, loaders: seq<I18nSourceLoader>)
      ensures this.orders == orders && this.loaders == loaders && languages == map[]
    {
      this.orders := orders;
      this.loaders := loaders;
      languages := map[];
    }

    /** `run`: merge the sources in `orders` order. */
    method Run()
      modifies this
      ensures languages == Collect(Sources(orders, loaders))
    {
      languages := ToCollect(Sources(orders, loaders));
    }

    /** `getTranslations`: the translations of a known language, a 404 otherwise. */
    function GetTranslations(language: string): (r: Result<map<string, string>, ApiError>)
      reads this
      ensures r.Success? <==> language in languages
      ensures r.Success? ==> r.value == languages[language]
      ensures r.Failure? ==>
        r.error == Error(404, "error.router.unknown.route", map["route" := "/i18n/" + language + ".json"])
    {
      if language in languages then Success(languages[language])
      else Failure(Error(404, "error.router.unknown.route", map["route" := "/i18n/" + language + ".json"]))
    }

    /** `getLanguages`: exactly the languages whose translations can be asked for. */
    function GetLanguages(): (r: set<string>)
      reads this
      ensures forall language :: language in r <==> GetTranslations(language).Success?
    {
      languages.Keys
    }

    /**
     * `translate(language, message)`: the unknown-key message when the language lacks the key
     * (also when the language is unknown), else its template with the placeholders filled.
     */
    function Translate(language: string, message: I18nMessage): (r: string)
      reads this
      ensures Lookup(languages, language, message.key).None? ==> r == UnknownKey(message.key, language)
      ensures Lookup(languages, language, message.key).Some? ==>
        r == Substitute(Lookup(languages, language, message.key).value, Variables(language, message))
    {
      var templates := if language in languages then languages[language] else map[];
      if message.key !in templates then UnknownKey(message.key, language)
      else Substitute(templates[message.key], Variables(language, message))
    }

    /** `translate(message)`: the English translation. */
    function TranslateDefault(message: I18nMessage): (r: string)
      reads this
      ensures Lookup(languages, "en", message.key).None? ==> r == UnknownKey(message.key, "en")
      ensures Lookup(languages, "en", message.key).Some? ==>
        r == Substitute(Lookup(languages, "en", message.key).value, Variables("en", message))
    {
      Translate("en", message)
    }

    /**
     * A template that opens with a placeholder: the placeholder takes its variable, and the
     * language and the key take theirs whatever the message context says.
     */
    lemma PlaceholderFilled(language: string, message: I18nMessage, name: string, rest: string)
      requires Lookup(languages, language, message.key) == Some("{" + name + "}" + rest)
      requires forall i :: 0 <= i < |name| ==> name[i] != '}'
      requires name in message.context || name == "I18N_LANGUAGE" || name == "I18N_KEY"
      ensures name == "I18N_LANGUAGE" ==> Translate(language, message) == language + Substitute(rest, Variables(language, message))
      ensures name == "I18N_KEY" ==> Translate(language, message) == message.key + Substitute(rest, Variables(language, message))
      ensures name != "I18N_LANGUAGE" && name != "I18N_KEY" ==>
        Translate(language, message) == message.context[name] + Substitute(rest, Variables(language, message))
    {
      SubstituteLeading(name, rest, Variables(language, message));
    }
  }
}
