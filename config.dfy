/** The client configuration store: three sections of settings, built from the defaults with a
    stored copy laid over them, changed section by section, and written back to local storage
    after every change. JSON text is not modelled: the stored copy is the value it parses to. */
module Config {
  import opened Common

  /** A JSON value. Numbers are reals, so 0.7 is held exactly. */
  datatype Value =
    | VNull
    | VBool(b: bool)
    | VNum(n: real)
    | VStr(s: string)
    | VList(items: seq<Value>)
    | VObj(fields: map<string, Value>)

  /** A configuration: the top-level keys and their values. */
  type Settings = map<string, Value>

  /** The three sections the typed interface gives access to. */
  datatype SectionKey = OpenAISection | ChatSection | UISection

  function SectionName(k: SectionKey): string {
    match k
    case OpenAISection => "openai"
    case ChatSection => "chat"
    case UISection => "ui"
  }

  /** `defaultConfig`; the OpenAI model is `OPENAI_MODEL` when set, else "gpt-3.5-turbo". */
  function Defaults(envModel: Option<string>): (d: Settings)
    ensures d.Keys == {"openai", "chat", "ui"}
    ensures d["openai"].VObj? && d["chat"].VObj? && d["ui"].VObj?
    ensures "model" in d["openai"].fields
            && d["openai"].fields["model"] == VStr(OrElse(envModel, "gpt-3.5-turbo"))
  {
    map[
      "openai" := VObj(map[
        "model" := VStr(OrElse(envModel, "gpt-3.5-turbo")),
        "temperature" := VNum(0.7),
        "maxTokens" := VNum(1000.0),
        "timeout" := VNum(30000.0)]),
      "chat" := VObj(map[
        "maxMessageLength" := VNum(4000.0),
        "maxConversationLength" := VNum(50.0),
        "autoSave" := VBool(true),
        "typingIndicatorDelay" := VNum(1000.0)]),
      "ui" := VObj(map[
        "theme" := VStr("auto"),
        "sidebarWidth" := VStr("15%"),
        "messageSpacing" := VNum(4.0),
        "showTimestamps" := VBool(true)])]
  }

  /** The object spread `{ ...a, ...b }`: every key of either, with `b`'s value where both
      have one. */
  function Spread(a: map<string, Value>, b: map<string, Value>): (r: map<string, Value>)
    ensures r.Keys == a.Keys + b.Keys
    ensures forall k :: k in b ==> r[k] == b[k]
    ensures forall k :: k in a && k !in b ==> r[k] == a[k]
  {
    a + b
  }

  /** Spreading the same updates twice is spreading them once. */
  lemma SpreadIdempotent(a: map<string, Value>, b: map<string, Value>)
    ensures Spread(Spread(a, b), b) == Spread(a, b)
  {
  }

  /** Spreading over a map that already has every key of the base gives that map back. */
  lemma SpreadCovering(a: map<string, Value>, b: map<string, Value>)
    requires a.Keys <= b.Keys
    ensures Spread(a, b) == b
  {
  }

  /** The own keys a value contributes to a spread, for the object sections the typed
      interface holds; any other value contributes none here. */
  function OwnFields(v: Value): map<string, Value> {
    if v.VObj? then v.fields else map[]
  }

  /** What local storage holds under "botchat-config": nothing (or the empty string), text
      `JSON.parse` rejects, or the keys and values of the parsed value. */
  datatype Stored = NothingStored | Unparseable | Parsed(entries: map<string, Value>)

  /** The configuration after loading: the defaults with the stored keys laid over them, or
      the defaults alone when nothing usable is stored. */
  function Loaded(defaults: Settings, stored: Stored): (c: Settings)
    ensures defaults.Keys <= c.Keys
    ensures stored.Parsed? ==> c == Spread(defaults, stored.entries)
    ensures !stored.Parsed? ==> c == defaults
  {
    if stored.Parsed? then Spread(defaults, stored.entries) else defaults
  }

  /** Loading what was saved gives the saved configuration back, as long as it still has every
      default key. */
  lemma LoadAfterSave(defaults: Settings, c: Settings)
    requires defaults.Keys <= c.Keys
    ensures Loaded(defaults, Parsed(c)) == c
  {
    SpreadCovering(defaults, c);
  }

  /** A loaded configuration always offers the three sections. */
  lemma LoadedHasSections(envModel: Option<string>, stored: Stored)
    ensures forall k: SectionKey :: SectionName(k) in Loaded(Defaults(envModel), stored)
  {
    forall k: SectionKey ensures SectionName(k) in Loaded(Defaults(envModel), stored) {
      assert SectionName(k) in Defaults(envModel);
    }
  }

  class ConfigService {
    var config: Settings
    /** The defaults this service was built with. */
    const defaults: Settings
    /** Whether there is a `window`; without one nothing is read or written. */
    const browser: bool
    /** The contents of local storage under "botchat-config". */
    var stored: Stored

    /** Every section is present. */
    ghost predicate Valid()
      reads this
    {
      (forall k: SectionKey :: SectionName(k) in config)
      && (forall k: SectionKey :: SectionName(k) in defaults)
    }

    /** The constructor: a copy of the defaults, then the stored copy laid over them. Nothing is
        written. */
    constructor (envModel: Option<string>, inBrowser: bool, initial: Stored)
      ensures Valid()
      ensures defaults == Defaults(envModel) && browser == inBrowser && stored == initial
      ensures config == (if inBrowser then Loaded(Defaults(envModel), initial) else Defaults(envModel))
    {
      defaults := Defaults(envModel);
      browser := inBrowser;
      stored := initial;
      config := Defaults(envModel);
      new;
      LoadedHasSections(envModel, initial);
      LoadFromStorage();
    }

    /** `loadFromStorage`: lays the stored keys over the defaults when something parseable is
        stored; otherwise the configuration is left as it is. */
    method LoadFromStorage()
      requires Valid()
      modifies this
      ensures Valid()
      ensures stored == old(stored)
      ensures browser && stored.Parsed? ==> config == Spread(defaults, stored.entries)
      ensures !(browser && stored.Parsed?) ==> config == old(config)
    {
      if browser && stored.Parsed? {
        config := Spread(defaults, stored.entries);
      }
    }

    /** `saveToStorage`: the whole configuration is written. */
    method SaveToStorage()
      modifies this
      ensures config == old(config)
      ensures stored == (if browser then Parsed(config) else old(stored))
    {
      if browser {
        stored := Parsed(config);
      }
    }

    /** `get`: the current value of a section. */
    method Get(k: SectionKey) returns (v: Value)
      requires Valid()
      ensures v == config[SectionName(k)]
    {
      v := config[SectionName(k)];
    }

    /** `set`: the section is replaced, every other key keeps its value, and the result is
        saved. */
    method Set(k: SectionKey, value: Value)
      requires Valid()
      modifies this
      ensures Valid()
      ensures config == old(config)[SectionName(k) := value]
      ensures stored == (if browser then Parsed(config) else old(stored))
    {
      config := config[SectionName(k) := value];
      SaveToStorage();
    }

    /** `update`: the keys given get their new values, the section's other keys and every other
        section keep theirs, and the result is saved. */
    method Update(k: SectionKey, updates: map<string, Value>)
      requires Valid()
      modifies this
      ensures Valid()
      ensures config == old(config)[SectionName(k) := VObj(Spread(OwnFields(old(config)[SectionName(k)]), updates))]
      ensures stored == (if browser then Parsed(config) else old(stored))
    {
      config := config[SectionName(k) := VObj(Spread(OwnFields(config[SectionName(k)]), updates))];
      SaveToStorage();
    }

    /** `reset`: the defaults come back, and are saved. */
    method Reset()
      requires Valid()
      modifies this
      ensures Valid()
      ensures config == defaults
      ensures stored == (if browser then Parsed(defaults) else old(stored))
    {
      config := defaults;
      SaveToStorage();
    }

    /** `getAll`: a copy equal to the current configuration. */
    method GetAll() returns (c: Settings)
      ensures c == config
    {
      c := config;
    }
  }

  /** After a `set`, the section reads back as the value set and every other section as before. */
  lemma SetThenGet(c: Settings, k: SectionKey, j: SectionKey, value: Value)
    requires SectionName(j) in c
    ensures c[SectionName(k) := value][SectionName(j)] == (if j == k then value else c[SectionName(j)])
  {
    if j != k {
      assert SectionName(j) != SectionName(k) by {
        assert SectionName(j)[0] != SectionName(k)[0];
      }
    }
  }

  /** An `update` of an object section changes exactly the keys it names. */
  lemma UpdateChangesOnlyNamedKeys(section: map<string, Value>, updates: map<string, Value>, key: string)
    requires key in section && key !in updates
    ensures Spread(section, updates)[key] == section[key]
  {
  }

  /** Once saved, the configuration survives a reload: a new service in the browser starts from
      what the old one saved. */
  lemma ReloadKeepsSaved(envModel: Option<string>, c: Settings)
    requires forall k: SectionKey :: SectionName(k) in c
    ensures Loaded(Defaults(envModel), Parsed(c)) == c
  {
    var d := Defaults(envModel);
    forall key | key in d ensures key in c {
      if key == "openai" { assert SectionName(OpenAISection) in c; }
      else if key == "chat" { assert SectionName(ChatSection) in c; }
      else { assert SectionName(UISection) in c; }
    }
    LoadAfterSave(d, c);
  }
}
