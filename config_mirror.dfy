/**
  The configuration mirror of the web control panel: seeding the sidebar
  form from the loaded configuration document (`Seed`), and rebuilding the
  four managed sections from the form when the user saves (`ApplyForm`,
  `ConfigPanel.Save`).
 */
module ConfigMirror {
  import opened Wrappers
  import opened Toml

  // ---------------------------------------------------------------------
  // The form
  // ---------------------------------------------------------------------

  /** The options of the search-engine select box, in their displayed order. */
  const EngineOptions: seq<Value> := [Str("Google"), Str("Baidu"), Str("DuckDuckGo")]

  /** A position in `EngineOptions`: what the select box works with. */
  type EngineIndex = i: nat | i < 3

  /** The five fields that the `llm` section and its `vision` sub-table share. */
  datatype ModelFields = ModelFields(model: Value, baseUrl: Value, apiKey: Value, maxTokens: Value, temperature: Value)

  datatype BrowserFields = BrowserFields(headless: Value, disableSecurity: Value, wssUrl: Value, cdpUrl: Value)

  datatype ProxyFields = ProxyFields(server: Value, password: Value)

  datatype SandboxFields = SandboxFields(useSandbox: Value, image: Value, workDir: Value, timeout: Value, networkEnabled: Value)

  /** The values of the sidebar widgets. Seeded from the document, they are
      the values each widget is given; on save, they are what the widgets
      return. */
  datatype Form = Form(
    llm: ModelFields,
    vision: ModelFields,
    browser: BrowserFields,
    proxy: ProxyFields,
    engine: EngineIndex,
    sandbox: SandboxFields)

  /** Why seeding raises: `.get` called on a section that is present but is
      not a table (Python's AttributeError), or an engine name that is not
      one of the options (ValueError from `list.index`). */
  datatype SeedError = NotATable(path: seq<string>) | UnknownEngine(engine: Value)

  datatype Seeded = Ok(form: Form) | Err(error: SeedError)

  // ---------------------------------------------------------------------
  // Reading the document
  // ---------------------------------------------------------------------

  /** Python's `list.index`: the first position of `v` in `xs`, or None where
      Python raises ValueError. */
  function IndexOf(xs: seq<Value>, v: Value): (r: Option<nat>)
    ensures r.Some? ==> r.value < |xs| && xs[r.value] == v && v !in xs[..r.value]
    ensures r.None? <==> v !in xs
  {
    if xs == [] then None
    else if xs[0] == v then Some(0)
    else match IndexOf(xs[1..], v)
      case None => None
      case Some(i) => Some(i + 1)
  }

  function ReadModel(t: Document): ModelFields
  {
    ModelFields(
      Get(t, "model", Str("")),
      Get(t, "base_url", Str("")),
      Get(t, "api_key", Str("")),
      Get(t, "max_tokens", Int(8192)),
      Get(t, "temperature", Float(FloatZero)))
  }

  function ReadBrowser(t: Document): BrowserFields
  {
    BrowserFields(
      Get(t, "headless", Bool(false)),
      Get(t, "disable_security", Bool(true)),
      Get(t, "wss_url", Str("")),
      Get(t, "cdp_url", Str("")))
  }

  function ReadProxy(t: Document): ProxyFields
  {
    ProxyFields(Get(t, "server", Str("")), Get(t, "password", Str("")))
  }

  function ReadSandbox(t: Document): SandboxFields
  {
    SandboxFields(
      Get(t, "use_sandbox", Bool(false)),
      Get(t, "image", Str("")),
      Get(t, "work_dir", Str("")),
      Get(t, "timeout", Int(300)),
      Get(t, "network_enabled", Bool(true)))
  }

  /** The sidebar's reads, in the order the script makes them. Every section
      is read with `config.get(name, {})`; the first one that is present but
      not a table makes the following `.get` raise, and so does an engine
      name that is not an option. */
  function Seed(config: Document): (r: Seeded)
    ensures r.Err? && r.error.NotATable? ==>
              && r.error.path in ReadOrder
              && PresentNonTable(config, r.error.path)
              && forall j, k :: 0 <= k < j < |ReadOrder| && ReadOrder[j] == r.error.path ==>
                   !PresentNonTable(config, ReadOrder[k])
    ensures r.Err? && r.error.NotATable? && r.error.path == ["sandbox"] ==>
              Read(config, EngineSpec) in EngineOptions
    ensures r.Err? && r.error.UnknownEngine? ==>
              && r.error.engine == Read(config, EngineSpec)
              && r.error.engine !in EngineOptions
              && forall k :: 0 <= k < |ReadOrder| - 1 ==> !PresentNonTable(config, ReadOrder[k])
  {
    var llm := Get(config, "llm", EmptyTable);
    if !llm.Table? then Err(NotATable(["llm"])) else
    var vision := Get(llm.t, "vision", EmptyTable);
    if !vision.Table? then Err(NotATable(["llm", "vision"])) else
    var browser := Get(config, "browser", EmptyTable);
    if !browser.Table? then Err(NotATable(["browser"])) else
    var proxy := Get(browser.t, "proxy", EmptyTable);
    if !proxy.Table? then Err(NotATable(["browser", "proxy"])) else
    var search := Get(config, "search", EmptyTable);
    if !search.Table? then Err(NotATable(["search"])) else
    var engine := Get(search.t, "engine", Str("Google"));
    match IndexOf(EngineOptions, engine)
    case None => Err(UnknownEngine(engine))
    case Some(i) =>
      var sandbox := Get(config, "sandbox", EmptyTable);
      if !sandbox.Table? then Err(NotATable(["sandbox"])) else
      Ok(Form(ReadModel(llm.t), ReadModel(vision.t), ReadBrowser(browser.t),
              ReadProxy(proxy.t), i, ReadSandbox(sandbox.t)))
  }

  /** The sections whose `.get` can raise, in the order the script reads them;
      `sandbox` is read after the engine lookup. */
  const ReadOrder: seq<seq<string>> :=
    [["llm"], ["llm", "vision"], ["browser"], ["browser", "proxy"], ["search"], ["sandbox"]]

  /** The section at `path` is present but is not a table, while every
      section above it is a table. */
  predicate PresentNonTable(d: Document, path: seq<string>)
    decreases |path|
  {
    && path != []
    && path[0] in d
    && if |path| == 1 then !d[path[0]].Table?
       else d[path[0]].Table? && PresentNonTable(d[path[0]].t, path[1..])
  }

  // ---------------------------------------------------------------------
  // Writing the document
  // ---------------------------------------------------------------------

  /** The top-level keys that a save replaces. */
  const ManagedSections: set<string> := {"llm", "browser", "search", "sandbox"}

  const ModelKeys: set<string> := {"model", "base_url", "api_key", "max_tokens", "temperature"}
  const LlmKeys: set<string> := ModelKeys + {"vision"}
  const BrowserKeys: set<string> := {"headless", "disable_security", "wss_url", "cdp_url", "proxy"}
  const ProxyKeys: set<string> := {"server", "password"}
  const SearchKeys: set<string> := {"engine"}
  const SandboxKeys: set<string> := {"use_sandbox", "image", "work_dir", "timeout", "network_enabled"}

  function ModelTable(f: ModelFields): Document
  {
    map["model" := f.model, "base_url" := f.baseUrl, "api_key" := f.apiKey,
        "max_tokens" := f.maxTokens, "temperature" := f.temperature]
  }

  function LlmTable(form: Form): Document
  {
    ModelTable(form.llm)["vision" := Table(ModelTable(form.vision))]
  }

  function BrowserTable(form: Form): Document
  {
    map["headless" := form.browser.headless, "disable_security" := form.browser.disableSecurity,
        "wss_url" := form.browser.wssUrl, "cdp_url" := form.browser.cdpUrl,
        "proxy" := Table(map["server" := form.proxy.server, "password" := form.proxy.password])]
  }

  function SearchTable(form: Form): Document
  {
    map["engine" := EngineOptions[form.engine]]
  }

  function SandboxTable(form: Form): Document
  {
    map["use_sandbox" := form.sandbox.useSandbox, "image" := form.sandbox.image,
        "work_dir" := form.sandbox.workDir, "timeout" := form.sandbox.timeout,
        "network_enabled" := form.sandbox.networkEnabled]
  }

  /** The save: each managed section is replaced by a table built from the
      form alone (nothing of the old section is merged in), and every other
      top-level entry is kept. */
  function ApplyForm(config: Document, form: Form): (r: Document)
    ensures r.Keys == config.Keys + ManagedSections
    ensures forall k :: k in config && k !in ManagedSections ==> r[k] == config[k]
  {
    config["llm" := Table(LlmTable(form))]
          ["browser" := Table(BrowserTable(form))]
          ["search" := Table(SearchTable(form))]
          ["sandbox" := Table(SandboxTable(form))]
  }

  // ---------------------------------------------------------------------
  // Reference: the managed fields as a table of paths and defaults
  // ---------------------------------------------------------------------

  /** A managed field: the tables leading to it, its key, and the default
      the sidebar shows when it is missing. */
  datatype FieldSpec = FieldSpec(path: seq<string>, key: string, default: Value)

  /** The five fields of `llm` and of `llm.vision`. */
  function ModelSpecs(path: seq<string>): seq<FieldSpec>
  {
    [FieldSpec(path, "model", Str("")),
     FieldSpec(path, "base_url", Str("")),
     FieldSpec(path, "api_key", Str("")),
     FieldSpec(path, "max_tokens", Int(8192)),
     FieldSpec(path, "temperature", Float(FloatZero))]
  }

  const BrowserSpecs: seq<FieldSpec> := [
    FieldSpec(["browser"], "headless", Bool(false)),
    FieldSpec(["browser"], "disable_security", Bool(true)),
    FieldSpec(["browser"], "wss_url", Str("")),
    FieldSpec(["browser"], "cdp_url", Str(""))]

  const ProxySpecs: seq<FieldSpec> := [
    FieldSpec(["browser", "proxy"], "server", Str("")),
    FieldSpec(["browser", "proxy"], "password", Str(""))]

  const EngineSpec: FieldSpec := FieldSpec(["search"], "engine", Str("Google"))

  const SandboxSpecs: seq<FieldSpec> := [
    FieldSpec(["sandbox"], "use_sandbox", Bool(false)),
    FieldSpec(["sandbox"], "image", Str("")),
    FieldSpec(["sandbox"], "work_dir", Str("")),
    FieldSpec(["sandbox"], "timeout", Int(300)),
    FieldSpec(["sandbox"], "network_enabled", Bool(true))]

  /** Every field the sidebar edits, in `FormValues` order. */
  const ManagedFields: seq<FieldSpec> :=
    ModelSpecs(["llm"]) + ModelSpecs(["llm", "vision"]) + BrowserSpecs + ProxySpecs + [EngineSpec] + SandboxSpecs

  /** The value stored at `path` / `key`, if every table on the way exists. */
  function Stored(d: Document, path: seq<string>, key: string): Option<Value>
    decreases |path|
  {
    if path == [] then (if key in d then Some(d[key]) else None)
    else if path[0] in d && d[path[0]].Table? then Stored(d[path[0]].t, path[1..], key)
    else None
  }

  /** What the sidebar should show for one field: the stored value, or the default. */
  function Read(d: Document, f: FieldSpec): Value
  {
    match Stored(d, f.path, f.key)
    case Some(v) => v
    case None => f.default
  }

  function ReadAll(d: Document, specs: seq<FieldSpec>): seq<Value>
  {
    seq(|specs|, i requires 0 <= i < |specs| => Read(d, specs[i]))
  }

  function StoredAll(d: Document, specs: seq<FieldSpec>): seq<Option<Value>>
  {
    seq(|specs|, i requires 0 <= i < |specs| => Stored(d, specs[i].path, specs[i].key))
  }

  /** The form as the field table says it should be seeded. */
  function ReferenceValues(d: Document): seq<Value>
  {
    ReadAll(d, ManagedFields)
  }

  function ModelValues(m: ModelFields): seq<Value>
  {
    [m.model, m.baseUrl, m.apiKey, m.maxTokens, m.temperature]
  }

  function BrowserValues(b: BrowserFields): seq<Value>
  {
    [b.headless, b.disableSecurity, b.wssUrl, b.cdpUrl]
  }

  function ProxyValues(p: ProxyFields): seq<Value>
  {
    [p.server, p.password]
  }

  function SandboxValues(s: SandboxFields): seq<Value>
  {
    [s.useSandbox, s.image, s.workDir, s.timeout, s.networkEnabled]
  }

  /** A form's fields flattened in `ManagedFields` order; the engine as its name. */
  function FormValues(f: Form): seq<Value>
  {
    ModelValues(f.llm) + ModelValues(f.vision) + BrowserValues(f.browser) + ProxyValues(f.proxy)
      + [EngineOptions[f.engine]] + SandboxValues(f.sandbox)
  }

  function Somes(vs: seq<Value>): seq<Option<Value>>
  {
    seq(|vs|, i requires 0 <= i < |vs| => Some(vs[i]))
  }

  /** Every table on `path` that is present is a table (so `.get` on it works). */
  predicate TablesAlong(d: Document, path: seq<string>)
    decreases |path|
  {
    path == [] || path[0] !in d || (d[path[0]].Table? && TablesAlong(d[path[0]].t, path[1..]))
  }

  /** No section read by the sidebar is present with a non-table value. */
  predicate WellShaped(config: Document)
  {
    && TablesAlong(config, ["llm", "vision"])
    && TablesAlong(config, ["browser", "proxy"])
    && TablesAlong(config, ["search"])
    && TablesAlong(config, ["sandbox"])
  }

  /** The form the sidebar shows for a document with none of the sections. */
  const DefaultForm: Form := Form(
    ModelFields(Str(""), Str(""), Str(""), Int(8192), Float(FloatZero)),
    ModelFields(Str(""), Str(""), Str(""), Int(8192), Float(FloatZero)),
    BrowserFields(Bool(false), Bool(true), Str(""), Str("")),
    ProxyFields(Str(""), Str("")),
    0,
    SandboxFields(Bool(false), Str(""), Str(""), Int(300), Bool(true)))

  // ---------------------------------------------------------------------
  // Proof helpers
  // ---------------------------------------------------------------------

  /** The table the sidebar reads at `path`: `{}` where one is missing. */
  function SectionAt(d: Document, path: seq<string>): Document
    decreases |path|
  {
    if path == [] then d
    else if path[0] in d && d[path[0]].Table? then SectionAt(d[path[0]].t, path[1..])
    else map[]
  }

  lemma {:induction false} StoredInSection(d: Document, path: seq<string>, key: string)
    ensures Stored(d, path, key) == if key in SectionAt(d, path) then Some(SectionAt(d, path)[key]) else None
    decreases |path|
  {
    if path != [] && path[0] in d && d[path[0]].Table? {
      StoredInSection(d[path[0]].t, path[1..], key);
    }
  }

  lemma ReadAllConcat(d: Document, a: seq<FieldSpec>, b: seq<FieldSpec>)
    ensures ReadAll(d, a + b) == ReadAll(d, a) + ReadAll(d, b)
  {
  }

  lemma StoredAllConcat(d: Document, a: seq<FieldSpec>, b: seq<FieldSpec>)
    ensures StoredAll(d, a + b) == StoredAll(d, a) + StoredAll(d, b)
  {
  }

  lemma SomesConcat(a: seq<Value>, b: seq<Value>)
    ensures Somes(a + b) == Somes(a) + Somes(b)
  {
  }

  lemma ReadModelGroup(d: Document, path: seq<string>)
    ensures ModelValues(ReadModel(SectionAt(d, path))) == ReadAll(d, ModelSpecs(path))
  {
    StoredInSection(d, path, "model");
    StoredInSection(d, path, "base_url");
    StoredInSection(d, path, "api_key");
    StoredInSection(d, path, "max_tokens");
    StoredInSection(d, path, "temperature");
  }

  lemma ReadBrowserGroup(d: Document)
    ensures BrowserValues(ReadBrowser(SectionAt(d, ["browser"]))) == ReadAll(d, BrowserSpecs)
  {
    StoredInSection(d, ["browser"], "headless");
    StoredInSection(d, ["browser"], "disable_security");
    StoredInSection(d, ["browser"], "wss_url");
    StoredInSection(d, ["browser"], "cdp_url");
  }

  lemma ReadProxyGroup(d: Document)
    ensures ProxyValues(ReadProxy(SectionAt(d, ["browser", "proxy"]))) == ReadAll(d, ProxySpecs)
  {
    StoredInSection(d, ["browser", "proxy"], "server");
    StoredInSection(d, ["browser", "proxy"], "password");
  }

  lemma ReadSandboxGroup(d: Document)
    ensures SandboxValues(ReadSandbox(SectionAt(d, ["sandbox"]))) == ReadAll(d, SandboxSpecs)
  {
    StoredInSection(d, ["sandbox"], "use_sandbox");
    StoredInSection(d, ["sandbox"], "image");
    StoredInSection(d, ["sandbox"], "work_dir");
    StoredInSection(d, ["sandbox"], "timeout");
    StoredInSection(d, ["sandbox"], "network_enabled");
  }

  lemma SectionAtOne(d: Document, s: string)
    requires Get(d, s, EmptyTable).Table?
    ensures SectionAt(d, [s]) == Get(d, s, EmptyTable).t
  {
  }

  lemma SectionAtTwo(d: Document, s: string, u: string)
    requires Get(d, s, EmptyTable).Table? && Get(Get(d, s, EmptyTable).t, u, EmptyTable).Table?
    ensures SectionAt(d, [s, u]) == Get(Get(d, s, EmptyTable).t, u, EmptyTable).t
  {
    assert [s, u][1..] == [u];
    SectionAtOne(Get(d, s, EmptyTable).t, u);
    if s in d {
      assert SectionAt(d, [s, u]) == SectionAt(d[s].t, [u]);
    }
  }

  /** A successful seed reads each group from the table at its path. */
  lemma SeedSections(config: Document)
    requires Seed(config).Ok?
    ensures var f := Seed(config).form;
            && f.llm == ReadModel(SectionAt(config, ["llm"]))
            && f.vision == ReadModel(SectionAt(config, ["llm", "vision"]))
            && f.browser == ReadBrowser(SectionAt(config, ["browser"]))
            && f.proxy == ReadProxy(SectionAt(config, ["browser", "proxy"]))
            && [EngineOptions[f.engine]] == ReadAll(config, [EngineSpec])
            && f.sandbox == ReadSandbox(SectionAt(config, ["sandbox"]))
  {
    SectionAtOne(config, "llm");
    SectionAtTwo(config, "llm", "vision");
    SectionAtOne(config, "browser");
    SectionAtTwo(config, "browser", "proxy");
    SectionAtOne(config, "search");
    SectionAtOne(config, "sandbox");
    StoredInSection(config, ["search"], "engine");
  }

  /** Where each managed section stands after a save. */
  lemma SectionsAfterSave(config: Document, form: Form)
    ensures var r := ApplyForm(config, form);
            && SectionAt(r, ["llm"]) == LlmTable(form)
            && SectionAt(r, ["llm", "vision"]) == ModelTable(form.vision)
            && SectionAt(r, ["browser"]) == BrowserTable(form)
            && SectionAt(r, ["browser", "proxy"]) == map["server" := form.proxy.server, "password" := form.proxy.password]
            && SectionAt(r, ["search"]) == SearchTable(form)
            && SectionAt(r, ["sandbox"]) == SandboxTable(form)
  {
  }

  lemma ModelTableRoundTrip(m: ModelFields)
    ensures ReadModel(ModelTable(m)) == m
  {
  }

  lemma LlmTableRoundTrip(form: Form)
    ensures ReadModel(LlmTable(form)) == form.llm
    ensures Get(LlmTable(form), "vision", EmptyTable) == Table(ModelTable(form.vision))
    ensures ReadModel(ModelTable(form.vision)) == form.vision
  {
    ModelTableRoundTrip(form.vision);
  }

  lemma SectionTablesRoundTrip(form: Form)
    ensures ReadBrowser(BrowserTable(form)) == form.browser
    ensures Get(BrowserTable(form), "proxy", EmptyTable) == Table(map["server" := form.proxy.server, "password" := form.proxy.password])
    ensures ReadProxy(map["server" := form.proxy.server, "password" := form.proxy.password]) == form.proxy
    ensures Get(SearchTable(form), "engine", Str("Google")) == EngineOptions[form.engine]
    ensures ReadSandbox(SandboxTable(form)) == form.sandbox
  {
  }

  /** The four section reads of the sidebar after a save. */
  lemma GetAfterSave(config: Document, form: Form)
    ensures var r := ApplyForm(config, form);
            && Get(r, "llm", EmptyTable) == Table(LlmTable(form))
            && Get(r, "browser", EmptyTable) == Table(BrowserTable(form))
            && Get(r, "search", EmptyTable) == Table(SearchTable(form))
            && Get(r, "sandbox", EmptyTable) == Table(SandboxTable(form))
  {
  }

  lemma StoredModelGroup(d: Document, path: seq<string>, m: ModelFields)
    requires forall k :: k in ModelTable(m) ==> k in SectionAt(d, path) && SectionAt(d, path)[k] == ModelTable(m)[k]
    ensures StoredAll(d, ModelSpecs(path)) == Somes(ModelValues(m))
  {
    StoredInSection(d, path, "model");
    StoredInSection(d, path, "base_url");
    StoredInSection(d, path, "api_key");
    StoredInSection(d, path, "max_tokens");
    StoredInSection(d, path, "temperature");
  }

  lemma StoredBrowserGroup(d: Document, form: Form)
    requires SectionAt(d, ["browser"]) == BrowserTable(form)
    ensures StoredAll(d, BrowserSpecs) == Somes(BrowserValues(form.browser))
  {
    StoredInSection(d, ["browser"], "headless");
    StoredInSection(d, ["browser"], "disable_security");
    StoredInSection(d, ["browser"], "wss_url");
    StoredInSection(d, ["browser"], "cdp_url");
  }

  lemma StoredProxyGroup(d: Document, form: Form)
    requires SectionAt(d, ["browser", "proxy"]) == map["server" := form.proxy.server, "password" := form.proxy.password]
    ensures StoredAll(d, ProxySpecs) == Somes(ProxyValues(form.proxy))
  {
    StoredInSection(d, ["browser", "proxy"], "server");
    StoredInSection(d, ["browser", "proxy"], "password");
  }

  lemma StoredSandboxGroup(d: Document, form: Form)
    requires SectionAt(d, ["sandbox"]) == SandboxTable(form)
    ensures StoredAll(d, SandboxSpecs) == Somes(SandboxValues(form.sandbox))
  {
    StoredInSection(d, ["sandbox"], "use_sandbox");
    StoredInSection(d, ["sandbox"], "image");
    StoredInSection(d, ["sandbox"], "work_dir");
    StoredInSection(d, ["sandbox"], "timeout");
    StoredInSection(d, ["sandbox"], "network_enabled");
  }

  lemma EngineRoundTrip(i: EngineIndex)
    ensures IndexOf(EngineOptions, EngineOptions[i]) == Some(i)
  {
    assert EngineOptions[i] in EngineOptions;
  }

  // ---------------------------------------------------------------------
  // Properties
  // ---------------------------------------------------------------------

  /** Seeding raises exactly when a section the sidebar reads is present but
      not a table, or the stored engine is not one of the three options. */
  lemma SeedFailsExactly(config: Document)
    ensures Seed(config).Ok? <==> WellShaped(config) && Read(config, EngineSpec) in EngineOptions
    ensures Seed(config).Err? && Seed(config).error.UnknownEngine? ==>
              Seed(config).error.engine == Read(config, EngineSpec) &&
              Seed(config).error.engine !in EngineOptions
  {
    StoredInSection(config, ["search"], "engine");
  }

  /** Seeding reads each field at its own path with its own default. */
  lemma SeedAgreesWithReference(config: Document)
    requires Seed(config).Ok?
    ensures FormValues(Seed(config).form) == ReferenceValues(config)
  {
    SeedSections(config);
    ReadModelGroup(config, ["llm"]);
    ReadModelGroup(config, ["llm", "vision"]);
    ReadBrowserGroup(config);
    ReadProxyGroup(config);
    ReadSandboxGroup(config);
    var m1, m2 := ModelSpecs(["llm"]), ModelSpecs(["llm", "vision"]);
    ReadAllConcat(config, m1, m2);
    ReadAllConcat(config, m1 + m2, BrowserSpecs);
    ReadAllConcat(config, m1 + m2 + BrowserSpecs, ProxySpecs);
    ReadAllConcat(config, m1 + m2 + BrowserSpecs + ProxySpecs, [EngineSpec]);
    ReadAllConcat(config, m1 + m2 + BrowserSpecs + ProxySpecs + [EngineSpec], SandboxSpecs);
  }

  /** A field whose key, or one of whose tables, is missing is shown with
      its literal default. */
  lemma MissingFieldsTakeDefaults(config: Document)
    requires Seed(config).Ok?
    ensures forall i :: 0 <= i < |ManagedFields| && Stored(config, ManagedFields[i].path, ManagedFields[i].key) == None ==>
              FormValues(Seed(config).form)[i] == ManagedFields[i].default
  {
    SeedAgreesWithReference(config);
  }

  /** A document with none of the managed sections seeds the default form. */
  lemma SeedOfEmptyDocument(config: Document)
    requires config.Keys !! ManagedSections
    ensures Seed(config) == Ok(DefaultForm)
  {
  }

  lemma FormValuesInjective(f: Form, g: Form)
    requires FormValues(f) == FormValues(g)
    ensures f == g
  {
    assert FormValues(f)[16] == FormValues(g)[16];
    EngineRoundTrip(f.engine);
    EngineRoundTrip(g.engine);
    assert ModelValues(f.llm) == FormValues(f)[..5] == FormValues(g)[..5] == ModelValues(g.llm);
    assert ModelValues(f.vision) == FormValues(f)[5..10] == FormValues(g)[5..10] == ModelValues(g.vision);
    assert BrowserValues(f.browser) == FormValues(f)[10..14] == FormValues(g)[10..14] == BrowserValues(g.browser);
    assert ProxyValues(f.proxy) == FormValues(f)[14..16] == FormValues(g)[14..16] == ProxyValues(g.proxy);
    assert SandboxValues(f.sandbox) == FormValues(f)[17..] == FormValues(g)[17..] == SandboxValues(g.sandbox);
  }

  /** The form is determined by the stored values of the managed fields
      alone: nothing else in the document is read. */
  lemma SeedReadsOnlyManagedFields(c1: Document, c2: Document)
    requires Seed(c1).Ok? && Seed(c2).Ok?
    requires StoredAll(c1, ManagedFields) == StoredAll(c2, ManagedFields)
    ensures Seed(c1) == Seed(c2)
  {
    SeedAgreesWithReference(c1);
    SeedAgreesWithReference(c2);
    assert ReferenceValues(c1) == ReferenceValues(c2) by {
      forall i | 0 <= i < |ManagedFields|
        ensures ReferenceValues(c1)[i] == ReferenceValues(c2)[i]
      {
        assert StoredAll(c1, ManagedFields)[i] == StoredAll(c2, ManagedFields)[i];
      }
    }
    FormValuesInjective(Seed(c1).form, Seed(c2).form);
  }

  /** A save writes every field of the form at its path. */
  lemma SaveStoresEveryField(config: Document, form: Form)
    ensures StoredAll(ApplyForm(config, form), ManagedFields) == Somes(FormValues(form))
  {
    var r := ApplyForm(config, form);
    SectionsAfterSave(config, form);
    StoredModelGroup(r, ["llm"], form.llm);
    StoredModelGroup(r, ["llm", "vision"], form.vision);
    StoredBrowserGroup(r, form);
    StoredProxyGroup(r, form);
    StoredInSection(r, ["search"], "engine");
    StoredSandboxGroup(r, form);
    var m1, m2 := ModelSpecs(["llm"]), ModelSpecs(["llm", "vision"]);
    StoredAllConcat(r, m1, m2);
    StoredAllConcat(r, m1 + m2, BrowserSpecs);
    StoredAllConcat(r, m1 + m2 + BrowserSpecs, ProxySpecs);
    StoredAllConcat(r, m1 + m2 + BrowserSpecs + ProxySpecs, [EngineSpec]);
    StoredAllConcat(r, m1 + m2 + BrowserSpecs + ProxySpecs + [EngineSpec], SandboxSpecs);
    var v1, v2 := ModelValues(form.llm), ModelValues(form.vision);
    SomesConcat(v1, v2);
    SomesConcat(v1 + v2, BrowserValues(form.browser));
    SomesConcat(v1 + v2 + BrowserValues(form.browser), ProxyValues(form.proxy));
    SomesConcat(v1 + v2 + BrowserValues(form.browser) + ProxyValues(form.proxy), [EngineOptions[form.engine]]);
    SomesConcat(v1 + v2 + BrowserValues(form.browser) + ProxyValues(form.proxy) + [EngineOptions[form.engine]],
                SandboxValues(form.sandbox));
  }

  /** Round trip: seeding the saved document gives back the saved form. */
  lemma SeedAfterSave(config: Document, form: Form)
    ensures Seed(ApplyForm(config, form)) == Ok(form)
  {
    GetAfterSave(config, form);
    LlmTableRoundTrip(form);
    SectionTablesRoundTrip(form);
    EngineRoundTrip(form.engine);
  }

  /** Saving the form seeded from a document, unedited, stores every managed
      field, missing ones with their default, and seeding again gives the
      same form, so a second unedited save changes nothing. */
  lemma UneditedSaveIsIdempotent(config: Document)
    requires Seed(config).Ok?
    ensures var saved := ApplyForm(config, Seed(config).form);
            && StoredAll(saved, ManagedFields) == Somes(ReferenceValues(config))
            && Seed(saved) == Seed(config)
            && ApplyForm(saved, Seed(saved).form) == saved
  {
    var form := Seed(config).form;
    SeedAgreesWithReference(config);
    SaveStoresEveryField(config, form);
    SeedAfterSave(config, form);
    ReapplyChangesNothing(config, form);
  }

  lemma ReapplyChangesNothing(config: Document, form: Form)
    ensures ApplyForm(ApplyForm(config, form), form) == ApplyForm(config, form)
  {
  }

  /** Replace, not merge: after a save each managed table, the `llm.vision`
      and `browser.proxy` sub-tables included, has exactly the keys the form
      writes, so every other key the old table held is gone. */
  lemma SavedSectionsHaveExactKeys(config: Document, form: Form)
    ensures var r := ApplyForm(config, form);
            && r["llm"].Table? && r["llm"].t.Keys == LlmKeys
            && r["llm"].t["vision"].Table? && r["llm"].t["vision"].t.Keys == ModelKeys
            && r["browser"].Table? && r["browser"].t.Keys == BrowserKeys
            && r["browser"].t["proxy"].Table? && r["browser"].t["proxy"].t.Keys == ProxyKeys
            && r["search"].Table? && r["search"].t.Keys == SearchKeys
            && r["sandbox"].Table? && r["sandbox"].t.Keys == SandboxKeys
  {
    GetAfterSave(config, form);
    TableKeys(form);
  }

  lemma TableKeys(form: Form)
    ensures LlmTable(form).Keys == LlmKeys && ModelTable(form.vision).Keys == ModelKeys
    ensures BrowserTable(form).Keys == BrowserKeys
    ensures BrowserTable(form)["proxy"] == Table(map["server" := form.proxy.server, "password" := form.proxy.password])
    ensures SearchTable(form).Keys == SearchKeys && SandboxTable(form).Keys == SandboxKeys
  {
  }

  /** Editing a field in the form, saving and reloading shows the edit. */
  lemma EditedModelSurvivesReload(config: Document, model: string)
    requires Seed(config).Ok?
    ensures var f := Seed(config).form;
            var edited := f.(llm := f.llm.(model := Str(model)));
            Seed(ApplyForm(config, edited)).Ok? && Seed(ApplyForm(config, edited)).form.llm.model == Str(model)
  {
    var f := Seed(config).form;
    SeedAfterSave(config, f.(llm := f.llm.(model := Str(model))));
  }

  // ---------------------------------------------------------------------
  // The document as the script holds it
  // ---------------------------------------------------------------------

  /** The configuration file and the script's `config` dictionary. Parsing
      and serialising TOML are taken to be inverse to each other, so the
      file is modelled by the document it holds. */
  class ConfigPanel {
    /** The document stored in the configuration file. */
    var file: Document
    /** The `config` dictionary of the current script run. */
    var config: Document

    constructor (onDisk: Document)
      ensures file == onDisk && config == onDisk
    {
      file := onDisk;
      config := onDisk;
    }

    /** `config = load_config()`. */
    method Load()
      modifies this
      ensures config == file && file == old(file)
    {
      config := file;
    }

    /** The save button: the four managed entries of `config` are assigned,
        then `config` is written back to the file. */
    method Save(form: Form)
      modifies this
      ensures config == ApplyForm(old(config), form)
      ensures forall k :: k in old(config) && k !in ManagedSections ==> k in config && config[k] == old(config)[k]
      ensures Seed(config) == Ok(form)
      ensures file == config
    {
      config := config["llm" := Table(LlmTable(form))];
      config := config["browser" := Table(BrowserTable(form))];
      config := config["search" := Table(SearchTable(form))];
      config := config["sandbox" := Table(SandboxTable(form))];
      SeedAfterSave(old(config), form);
      file := config;
    }
  }
}
