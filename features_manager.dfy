/** `EditorsKit_Features_Manager`: a singleton that, when first registered,
    subscribes its `block_editor_settings` handler to the host's filter of the
    same name; the handler stores the feature catalog under the `editorskit`
    settings key unless that key is already set. */
module FeaturesManager {
  import opened PhpValues
  import opened FeaturesCatalog

  /** The settings key the handler fills. */
  const SettingsKey: string := "editorskit"

  // ---------------------------------------------------------------------------
  // The filter handler

  /** `block_editor_settings( $editor_settings, $post )`: when the `editorskit`
      key is not set (absent, or holding null), it is set to the catalog; no
      other key is touched, and the `$post` argument plays no part. */
  function BlockEditorSettings<Post>(settings: Settings, post: Post, tr: Translator): (r: Settings)
    ensures r.Keys == settings.Keys + {SettingsKey}
    ensures forall k :: k in settings && k != SettingsKey ==> r[k] == settings[k]
    ensures IsSet(settings, SettingsKey) ==> r == settings
    ensures !IsSet(settings, SettingsKey) ==> r[SettingsKey] == Catalog(tr)
    ensures IsSet(r, SettingsKey)
  {
    if !IsSet(settings, SettingsKey) then settings[SettingsKey := Catalog(tr)] else settings
  }

  /** Running the handler a second time, with any post and any lookup, changes nothing. */
  lemma BlockEditorSettingsIdempotent<Post>(settings: Settings, post1: Post, post2: Post,
                                            tr1: Translator, tr2: Translator)
    ensures BlockEditorSettings(BlockEditorSettings(settings, post1, tr1), post2, tr2)
         == BlockEditorSettings(settings, post1, tr1)
  {
  }

  /** The post being edited never affects the result. This follows from the
      signature alone: `Post` is a type parameter the body never mentions. */
  lemma BlockEditorSettingsIgnoresPost<Post>(settings: Settings, post1: Post, post2: Post, tr: Translator)
    ensures BlockEditorSettings(settings, post1, tr) == BlockEditorSettings(settings, post2, tr)
  {
  }

  /** The result depends on the lookup only through the translations of the
      catalog's label texts in the `editorskit` domain. */
  lemma BlockEditorSettingsDependsOnLookups<Post>(settings: Settings, post: Post,
                                                  tr1: Translator, tr2: Translator)
    requires forall t :: t in LabelTexts(Table) ==> tr1(t, TextDomain) == tr2(t, TextDomain)
    ensures BlockEditorSettings(settings, post, tr1) == BlockEditorSettings(settings, post, tr2)
  {
    CatalogDependsOnLookups(tr1, tr2);
    if !IsSet(settings, SettingsKey) {
      assert settings[SettingsKey := Catalog(tr1)] == settings[SettingsKey := Catalog(tr2)];
    }
  }

  /** When the handler injects, what it stores under `editorskit` holds
      exactly the six categories, each stored under its own name, with
      enabled features stored under their own names and translated labels. */
  lemma InjectedCatalog<Post>(settings: Settings, post: Post, tr: Translator)
    requires !IsSet(settings, SettingsKey)
    ensures var injected := BlockEditorSettings(settings, post, tr)[SettingsKey];
            && IsCatalog(injected, tr)
            && injected.entries.Keys == {"visibility", "formats", "writing", "options", "tools", "shortcuts"}
            && |ItemsOf(injected, "visibility")| + |ItemsOf(injected, "formats")|
               + |ItemsOf(injected, "writing")| + |ItemsOf(injected, "options")|
               + |ItemsOf(injected, "tools")| + |ItemsOf(injected, "shortcuts")| == 36
  {
    CatalogWellFormed(tr);
    CatalogCategories(tr);
    CatalogItemCounts(tr);
  }

  /** On empty settings, the `markdown` feature of the `writing` category is
      named `markdown`, labelled with the lookup of "Markdown" and enabled. */
  lemma MarkdownOnEmptySettings<Post>(post: Post, tr: Translator)
    ensures "markdown" in ItemsOf(BlockEditorSettings(map[], post, tr)[SettingsKey], "writing")
    ensures ItemsOf(BlockEditorSettings(map[], post, tr)[SettingsKey], "writing")["markdown"]
         == Dict(map["name" := Str("markdown"), "label" := Str(tr("Markdown", "editorskit")), "value" := Bool(true)])
  {
    TableCategoriesDistinct();
    assert Table[2].key == "writing" && Table[2].items[2] == FeatureEntry("markdown", "markdown", "Markdown");
    assert Table[2].items[3].key != "markdown";
    CatalogOfFeature(Table, tr, 2, 2);
  }

  // ---------------------------------------------------------------------------
  // Registration

  /** One `add_filter( $hook, $callback, $priority, $accepted_args )` subscription. */
  datatype Filter = Filter(hook: string, callback: string, priority: int, acceptedArgs: nat)

  /** The subscription the constructor makes: the instance's `block_editor_settings`
      method on the filter of that name, at priority 10, taking two arguments.
      The callback is recorded by its method name only. */
  const SettingsFilter: Filter :=
    Filter("block_editor_settings", "block_editor_settings", 10, 2)

  /** How often `f` occurs in `fs`. */
  function Count(fs: seq<Filter>, f: Filter): nat
  {
    if fs == [] then 0 else Count(fs[..|fs| - 1], f) + (if fs[|fs| - 1] == f then 1 else 0)
  }

  /** Appending one subscription adds one occurrence of it and of nothing else. */
  lemma CountAppend(fs: seq<Filter>, g: Filter, f: Filter)
    ensures Count(fs + [g], f) == Count(fs, f) + (if g == f then 1 else 0)
  {
  }

  /** The host's table of filter subscriptions, which `add_filter` appends to. */
  class FilterRegistry {
    var filters: seq<Filter>

    constructor()
      ensures filters == []
    {
      filters := [];
    }

    /** `add_filter`: records one more subscription. */
    method AddFilter(f: Filter)
      modifies this
      ensures filters == old(filters) + [f]
    {
      filters := filters + [f];
    }
  }

  /** An `EditorsKit_Features_Manager` object. Its `url`, `version` and `slug`
      fields are never read and are not modelled. */
  class Manager {
    /** The private constructor: subscribes the handler, once per object. */
    constructor(registry: FilterRegistry)
      modifies registry
      ensures registry.filters == old(registry.filters) + [SettingsFilter]
    {
      registry.AddFilter(SettingsFilter);
    }
  }

  /** The class's static state, `self::$instance`, and the host it registers with. */
  class Plugin {
    var instance: Manager?
    const registry: FilterRegistry
    /** How many times `register` has been called. */
    ghost var calls: nat
    /** Subscriptions of the handler that the host held before the class was loaded. */
    ghost var baseline: nat

    /** An instance exists exactly when `register` has been called, and then the
        handler has been subscribed exactly once. */
    ghost predicate Valid()
      reads this, registry
    {
      && (instance == null <==> calls == 0)
      && Count(registry.filters, SettingsFilter) == baseline + (if calls == 0 then 0 else 1)
    }

    /** Loading the class: no instance yet. */
    constructor(registry: FilterRegistry)
      ensures Valid()
      ensures this.registry == registry && instance == null && calls == 0
    {
      this.registry := registry;
      instance := null;
      calls := 0;
      baseline := Count(registry.filters, SettingsFilter);
    }

    /** `register()`: creates the instance, and so subscribes the handler, only
        when there is none yet. */
    method Register()
      requires Valid()
      modifies this, registry
      ensures Valid()
      ensures calls == old(calls) + 1 && baseline == old(baseline)
      ensures instance != null
      ensures old(instance) != null ==> instance == old(instance) && registry.filters == old(registry.filters)
      ensures old(instance) == null ==> fresh(instance) && registry.filters == old(registry.filters) + [SettingsFilter]
    {
      if instance == null {
        CountAppend(registry.filters, SettingsFilter, SettingsFilter);
        instance := new Manager(registry);
      }
      calls := calls + 1;
    }
  }

  /** Loading the class and calling `register()` twice subscribes the handler once. */
  method RegisterTwice(registry: FilterRegistry) returns (plugin: Plugin)
    modifies registry
    ensures registry.filters == old(registry.filters) + [SettingsFilter]
    ensures Count(registry.filters, SettingsFilter) == old(Count(registry.filters, SettingsFilter)) + 1
    ensures fresh(plugin) && plugin.registry == registry
    ensures plugin.Valid() && plugin.calls == 2 && plugin.instance != null
  {
    plugin := new Plugin(registry);
    plugin.Register();
    plugin.Register();
  }
}
