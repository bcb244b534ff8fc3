/** The EditorsKit feature catalog: the nested array that `block_editor_settings`
    stores under the `editorskit` key, kept as the table of entries the plugin
    writes literally and built into a PHP value with every label passed through
    the translation lookup in the `editorskit` text domain. */
module FeaturesCatalog {
  import opened PhpValues

  /** The host's translation lookup: from a text and a text domain to the displayed string. */
  type Translator = (string, string) -> string

  /** The text domain every label is looked up in. */
  const TextDomain: string := "editorskit"

  /** One feature entry of the literal: the key it is stored under, the
      `name` written inside it, and the text its label is looked up from. */
  datatype FeatureEntry = FeatureEntry(key: string, name: string, text: string)

  /** One category entry of the literal: its key, its `name`, its label text
      and its feature entries in order. */
  datatype CategoryEntry = CategoryEntry(key: string, name: string, text: string, items: seq<FeatureEntry>)

  /** The catalog as the plugin writes it, in its order. */
  const Table: seq<CategoryEntry> := [
    CategoryEntry("visibility", "visibility", "Visibility", [
      FeatureEntry("acf", "acf", "ACF Support"),
      FeatureEntry("devices", "devices", "Devices"),
      FeatureEntry("logic", "logic", "Display Logic"),
      FeatureEntry("userState", "userState", "User Login State")
    ]),
    CategoryEntry("formats", "formats", "Formats", [
      FeatureEntry("clearFormatting", "clearFormatting", "Clear Formatting"),
      FeatureEntry("highlight", "highlight", "Highlighted Text Color"),
      FeatureEntry("justify", "justify", "Justified Alignment"),
      FeatureEntry("link", "link", "Link with \"rel\" Attributes"),
      FeatureEntry("nonbreakingSpace", "nonbreakingSpace", "Nonbreaking Space"),
      FeatureEntry("subscript", "subscript", "Subscript"),
      FeatureEntry("superscript", "superscript", "Superscript"),
      FeatureEntry("colors", "colors", "Text Color"),
      FeatureEntry("underline", "underline", "Underline"),
      FeatureEntry("uppercase", "uppercase", "Uppercase")
    ]),
    CategoryEntry("writing", "writing", "Writing", [
      FeatureEntry("readingTime", "readingTime", "Estimated Reading Time"),
      FeatureEntry("headingLabel", "headingLabel", "Heading Block Label"),
      FeatureEntry("markdown", "markdown", "Markdown"),
      FeatureEntry("transformEmpty", "transformEmpty", "Transform 4 Empty Paragraphs to Spacer Block")
    ]),
    CategoryEntry("options", "options", "Block Options", [
      FeatureEntry("copy", "copy", "Copy Selected Block(s)"),
      FeatureEntry("navigator", "navigator", "Block Navigator"),
      FeatureEntry("export", "export", "Export as JSON"),
      FeatureEntry("listBlockFontSize", "listBlockFontSize", "List Block Font Size"),
      FeatureEntry("listBlockTextColor", "listBlockTextColor", "List Block Text Color"),
      FeatureEntry("mediaTextLayout", "mediaTextLayout", "Media Text Block Layout"),
      FeatureEntry("mediaTextLink", "mediaTextLink", "Media Text Block Link"),
      FeatureEntry("setAsFeatured", "setAsFeatured", "Set Image Block as Featured")
    ]),
    CategoryEntry("tools", "tools", "Tools", [
      FeatureEntry("guidelines", "guidelines", "Block Guide Lines"),
      FeatureEntry("codeHighlight", "codeHighlight", "Code Editor Syntax Highlight"),
      FeatureEntry("customClassNames", "customClassNames", "Custom Class Names"),
      FeatureEntry("dragAndDropFeatured", "dragAndDropFeatured", "Drag and Drop Featured Image"),
      FeatureEntry("height", "height", "Editor Min-Height"),
      FeatureEntry("autosave", "autosave", "Toggle Auto Save"),
      FeatureEntry("help", "help", "Help, tips and tricks"),
      FeatureEntry("toggleTitle", "toggleTitle", "Toggle Title Visibility"),
      FeatureEntry("scrollDown", "scrollDown", "View Custom Fields")
    ]),
    CategoryEntry("shortcuts", "shortcuts", "Shortcuts", [
      FeatureEntry("selectParent", "selectParent", "Select Parent Block")
    ])
  ]

  // ---------------------------------------------------------------------------
  // Building the PHP value

  /** A label: the text looked up in the `editorskit` domain. */
  function Label(text: string, tr: Translator): Value
  {
    Str(tr(text, TextDomain))
  }

  /** A feature descriptor: an array with `name`, translated `label` and `value` true. */
  function Descriptor(f: FeatureEntry, tr: Translator): (v: Value)
    ensures IsFeature(f.name, v, tr)
  {
    assert Translated(Label(f.text, tr), tr);
    Dict(map["name" := Str(f.name), "label" := Label(f.text, tr), "value" := Bool(true)])
  }

  /** The entries of an `items` literal, in order. */
  function ItemPairs(fs: seq<FeatureEntry>, tr: Translator): seq<(string, Value)>
  {
    seq(|fs|, i requires 0 <= i < |fs| => (fs[i].key, Descriptor(fs[i], tr)))
  }

  /** A category: an array with `name`, translated `label` and the `items` array. */
  function CategoryValue(c: CategoryEntry, tr: Translator): (v: Value)
    ensures v.Dict? && v.entries.Keys == {"name", "label", "items"}
    ensures v.entries["name"] == Str(c.name) && Translated(v.entries["label"], tr)
    ensures v.entries["items"].Dict? && v.entries["items"].entries.Keys == ItemKeys(c)
  {
    var items := ItemPairs(c.items, tr);
    assert forall j :: 0 <= j < |c.items| ==> items[j].0 == c.items[j].key;
    assert KeySet(items) == ItemKeys(c);
    assert Translated(Label(c.text, tr), tr);
    Dict(map["name" := Str(c.name), "label" := Label(c.text, tr),
             "items" := Dict(ArrayLiteral(ItemPairs(c.items, tr)))])
  }

  /** The entries of the outer literal, in order. */
  function CategoryPairs(cs: seq<CategoryEntry>, tr: Translator): seq<(string, Value)>
  {
    seq(|cs|, i requires 0 <= i < |cs| => (cs[i].key, CategoryValue(cs[i], tr)))
  }

  /** The value built from a table of categories. */
  function CatalogOf(cs: seq<CategoryEntry>, tr: Translator): (v: Value)
    ensures v.Dict? && v.entries.Keys == CategoryKeys(cs)
  {
    var pairs := CategoryPairs(cs, tr);
    assert forall i :: 0 <= i < |cs| ==> pairs[i].0 == cs[i].key;
    Dict(ArrayLiteral(CategoryPairs(cs, tr)))
  }

  /** The catalog that `block_editor_settings` injects. */
  function Catalog(tr: Translator): (v: Value)
    ensures IsCatalog(v, tr)
  {
    TableNamesMatchKeys();
    CatalogOfIsCatalog(Table, tr);
    CatalogOf(Table, tr)
  }

  /** The `items` array of category `c` of a catalog value (empty when absent). */
  function ItemsOf(catalog: Value, c: string): map<string, Value>
  {
    if catalog.Dict? && c in catalog.entries && catalog.entries[c].Dict?
       && "items" in catalog.entries[c].entries && catalog.entries[c].entries["items"].Dict?
    then catalog.entries[c].entries["items"].entries
    else map[]
  }

  // ---------------------------------------------------------------------------
  // The shape every catalog value has

  /** `v` is a string that the lookup produced for some text in the `editorskit` domain. */
  ghost predicate Translated(v: Value, tr: Translator)
  {
    exists text :: v == Label(text, tr)
  }

  /** A feature descriptor stored under `key`: its `name` is the key, its label
      a translation, and it is enabled. */
  ghost predicate IsFeature(key: string, v: Value, tr: Translator)
  {
    && v.Dict?
    && v.entries.Keys == {"name", "label", "value"}
    && v.entries["name"] == Str(key)
    && Translated(v.entries["label"], tr)
    && v.entries["value"] == Bool(true)
  }

  /** A category stored under `key`: its `name` is the key, its label a
      translation, and every item is a feature descriptor. */
  ghost predicate IsCategory(key: string, v: Value, tr: Translator)
  {
    && v.Dict?
    && v.entries.Keys == {"name", "label", "items"}
    && v.entries["name"] == Str(key)
    && Translated(v.entries["label"], tr)
    && v.entries["items"].Dict?
    && forall k :: k in v.entries["items"].entries ==> IsFeature(k, v.entries["items"].entries[k], tr)
  }

  /** A catalog: an array of categories. */
  ghost predicate IsCatalog(v: Value, tr: Translator)
  {
    v.Dict? && forall k :: k in v.entries ==> IsCategory(k, v.entries[k], tr)
  }

  /** In the table, every entry's `name` is written equal to its key. */
  predicate NamesMatchKeys(cs: seq<CategoryEntry>)
  {
    forall i :: 0 <= i < |cs| ==>
      && cs[i].name == cs[i].key
      && forall j :: 0 <= j < |cs[i].items| ==> cs[i].items[j].name == cs[i].items[j].key
  }

  // ---------------------------------------------------------------------------
  // Lemmas

  /** Items built from entries whose names match their keys are feature descriptors. */
  lemma ItemsAreFeatures(fs: seq<FeatureEntry>, tr: Translator)
    requires forall j :: 0 <= j < |fs| ==> fs[j].name == fs[j].key
    ensures forall k :: k in ArrayLiteral(ItemPairs(fs, tr)) ==>
              IsFeature(k, ArrayLiteral(ItemPairs(fs, tr))[k], tr)
  {
    var pairs := ItemPairs(fs, tr);
    forall k | k in ArrayLiteral(pairs)
      ensures IsFeature(k, ArrayLiteral(pairs)[k], tr)
    {
      ArrayLiteralWritten(pairs, k);
      var i :| 0 <= i < |pairs| && pairs[i].0 == k && ArrayLiteral(pairs)[k] == pairs[i].1;
      assert Translated(Label(fs[i].text, tr), tr);
    }
  }

  /** A category entry whose names match their keys builds a category stored under its key. */
  lemma CategoryValueIsCategory(c: CategoryEntry, tr: Translator)
    requires c.name == c.key
    requires forall j :: 0 <= j < |c.items| ==> c.items[j].name == c.items[j].key
    ensures IsCategory(c.key, CategoryValue(c, tr), tr)
  {
    ItemsAreFeatures(c.items, tr);
    assert Translated(Label(c.text, tr), tr);
  }

  /** A catalog built from a table whose names match their keys has the catalog shape. */
  lemma CatalogOfIsCatalog(cs: seq<CategoryEntry>, tr: Translator)
    requires NamesMatchKeys(cs)
    ensures IsCatalog(CatalogOf(cs, tr), tr)
  {
    var pairs := CategoryPairs(cs, tr);
    forall k | k in ArrayLiteral(pairs)
      ensures IsCategory(k, ArrayLiteral(pairs)[k], tr)
    {
      ArrayLiteralWritten(pairs, k);
      var i :| 0 <= i < |pairs| && pairs[i].0 == k && ArrayLiteral(pairs)[k] == pairs[i].1;
      CategoryValueIsCategory(cs[i], tr);
    }
  }

  /** The category keys a table writes. */
  function CategoryKeys(cs: seq<CategoryEntry>): set<string>
  {
    set i | 0 <= i < |cs| :: cs[i].key
  }

  /** The item keys a category entry writes. */
  function ItemKeys(c: CategoryEntry): set<string>
  {
    set j | 0 <= j < |c.items| :: c.items[j].key
  }

  /** A category whose key the table does not write again is stored as built
      from its entry, and its `items` array holds exactly the item keys the
      entry writes. */
  lemma CatalogOfCategory(cs: seq<CategoryEntry>, tr: Translator, i: int)
    requires 0 <= i < |cs|
    requires forall j :: i < j < |cs| ==> cs[j].key != cs[i].key
    ensures cs[i].key in CatalogOf(cs, tr).entries
    ensures CatalogOf(cs, tr).entries[cs[i].key] == CategoryValue(cs[i], tr)
    ensures ItemsOf(CatalogOf(cs, tr), cs[i].key).Keys == ItemKeys(cs[i])
  {
    var pairs := CategoryPairs(cs, tr);
    assert LastWithKey(pairs, i);
    ArrayLiteralLastWins(pairs, i);
  }

  /** A feature whose key its category does not write again is stored as
      the descriptor built from its entry. */
  lemma CatalogOfFeature(cs: seq<CategoryEntry>, tr: Translator, i: int, j: int)
    requires 0 <= i < |cs| && 0 <= j < |cs[i].items|
    requires forall l :: i < l < |cs| ==> cs[l].key != cs[i].key
    requires forall l :: j < l < |cs[i].items| ==> cs[i].items[l].key != cs[i].items[j].key
    ensures cs[i].items[j].key in ItemsOf(CatalogOf(cs, tr), cs[i].key)
    ensures ItemsOf(CatalogOf(cs, tr), cs[i].key)[cs[i].items[j].key] == Descriptor(cs[i].items[j], tr)
  {
    CatalogOfCategory(cs, tr, i);
    var items := ItemPairs(cs[i].items, tr);
    assert LastWithKey(items, j);
    ArrayLiteralLastWins(items, j);
  }

  /** The literal writes every `name` equal to its key. */
  lemma TableNamesMatchKeys()
    ensures NamesMatchKeys(Table)
  {
  }

  /** The literal writes no category key twice. */
  lemma TableCategoriesDistinct()
    ensures forall i, j :: 0 <= i < j < |Table| ==> Table[i].key != Table[j].key
  {
  }

  /** The literal writes exactly the six category keys. */
  lemma TableCategoryKeys()
    ensures CategoryKeys(Table) == {"visibility", "formats", "writing", "options", "tools", "shortcuts"}
  {
    var names := {"visibility", "formats", "writing", "options", "tools", "shortcuts"};
    forall k | k in CategoryKeys(Table) ensures k in names {
      var i :| 0 <= i < |Table| && Table[i].key == k;
      assert i == 0 || i == 1 || i == 2 || i == 3 || i == 4 || i == 5;
    }
    assert Table[0].key in CategoryKeys(Table);
    assert Table[1].key in CategoryKeys(Table);
    assert Table[2].key in CategoryKeys(Table);
    assert Table[3].key in CategoryKeys(Table);
    assert Table[4].key in CategoryKeys(Table);
    assert Table[5].key in CategoryKeys(Table);
  }

  /** The item keys the literal writes for `visibility`. */
  lemma TableVisibilityItems()
    ensures ItemKeys(Table[0]) == {"acf", "devices", "logic", "userState"}
  {
    var fs := Table[0].items;
    forall k | k in ItemKeys(Table[0]) ensures k in {"acf", "devices", "logic", "userState"} {
      var j :| 0 <= j < |fs| && fs[j].key == k;
      assert j == 0 || j == 1 || j == 2 || j == 3;
    }
    assert fs[0].key in ItemKeys(Table[0]);
    assert fs[1].key in ItemKeys(Table[0]);
    assert fs[2].key in ItemKeys(Table[0]);
    assert fs[3].key in ItemKeys(Table[0]);
  }

  /** The item keys the literal writes for `formats`. */
  lemma TableFormatsItems()
    ensures ItemKeys(Table[1]) == {"clearFormatting", "highlight", "justify", "link", "nonbreakingSpace", "subscript", "superscript", "colors", "underline", "uppercase"}
  {
    var fs := Table[1].items;
    forall k | k in ItemKeys(Table[1]) ensures k in {"clearFormatting", "highlight", "justify", "link", "nonbreakingSpace", "subscript", "superscript", "colors", "underline", "uppercase"} {
      var j :| 0 <= j < |fs| && fs[j].key == k;
      assert j == 0 || j == 1 || j == 2 || j == 3 || j == 4 || j == 5 || j == 6 || j == 7 || j == 8 || j == 9;
    }
    assert fs[0].key in ItemKeys(Table[1]);
    assert fs[1].key in ItemKeys(Table[1]);
    assert fs[2].key in ItemKeys(Table[1]);
    assert fs[3].key in ItemKeys(Table[1]);
    assert fs[4].key in ItemKeys(Table[1]);
    assert fs[5].key in ItemKeys(Table[1]);
    assert fs[6].key in ItemKeys(Table[1]);
    assert fs[7].key in ItemKeys(Table[1]);
    assert fs[8].key in ItemKeys(Table[1]);
    assert fs[9].key in ItemKeys(Table[1]);
  }

  /** The item keys the literal writes for `writing`. */
  lemma TableWritingItems()
    ensures ItemKeys(Table[2]) == {"readingTime", "headingLabel", "markdown", "transformEmpty"}
  {
    var fs := Table[2].items;
    forall k | k in ItemKeys(Table[2]) ensures k in {"readingTime", "headingLabel", "markdown", "transformEmpty"} {
      var j :| 0 <= j < |fs| && fs[j].key == k;
      assert j == 0 || j == 1 || j == 2 || j == 3;
    }
    assert fs[0].key in ItemKeys(Table[2]);
    assert fs[1].key in ItemKeys(Table[2]);
    assert fs[2].key in ItemKeys(Table[2]);
    assert fs[3].key in ItemKeys(Table[2]);
  }

  /** The item keys the literal writes for `options`. */
  lemma TableOptionsItems()
    ensures ItemKeys(Table[3]) == {"copy", "navigator", "export", "listBlockFontSize", "listBlockTextColor", "mediaTextLayout", "mediaTextLink", "setAsFeatured"}
  {
    var fs := Table[3].items;
    forall k | k in ItemKeys(Table[3]) ensures k in {"copy", "navigator", "export", "listBlockFontSize", "listBlockTextColor", "mediaTextLayout", "mediaTextLink", "setAsFeatured"} {
      var j :| 0 <= j < |fs| && fs[j].key == k;
      assert j == 0 || j == 1 || j == 2 || j == 3 || j == 4 || j == 5 || j == 6 || j == 7;
    }
    assert fs[0].key in ItemKeys(Table[3]);
    assert fs[1].key in ItemKeys(Table[3]);
    assert fs[2].key in ItemKeys(Table[3]);
    assert fs[3].key in ItemKeys(Table[3]);
    assert fs[4].key in ItemKeys(Table[3]);
    assert fs[5].key in ItemKeys(Table[3]);
    assert fs[6].key in ItemKeys(Table[3]);
    assert fs[7].key in ItemKeys(Table[3]);
  }

  /** The item keys the literal writes for `tools`. */
  lemma TableToolsItems()
    ensures ItemKeys(Table[4]) == {"guidelines", "codeHighlight", "customClassNames", "dragAndDropFeatured", "height", "autosave", "help", "toggleTitle", "scrollDown"}
  {
    var fs := Table[4].items;
    forall k | k in ItemKeys(Table[4]) ensures k in {"guidelines", "codeHighlight", "customClassNames", "dragAndDropFeatured", "height", "autosave", "help", "toggleTitle", "scrollDown"} {
      var j :| 0 <= j < |fs| && fs[j].key == k;
      assert j == 0 || j == 1 || j == 2 || j == 3 || j == 4 || j == 5 || j == 6 || j == 7 || j == 8;
    }
    assert fs[0].key in ItemKeys(Table[4]);
    assert fs[1].key in ItemKeys(Table[4]);
    assert fs[2].key in ItemKeys(Table[4]);
    assert fs[3].key in ItemKeys(Table[4]);
    assert fs[4].key in ItemKeys(Table[4]);
    assert fs[5].key in ItemKeys(Table[4]);
    assert fs[6].key in ItemKeys(Table[4]);
    assert fs[7].key in ItemKeys(Table[4]);
    assert fs[8].key in ItemKeys(Table[4]);
  }

  /** The item keys the literal writes for `shortcuts`. */
  lemma TableShortcutsItems()
    ensures ItemKeys(Table[5]) == {"selectParent"}
  {
    var fs := Table[5].items;
    forall k | k in ItemKeys(Table[5]) ensures k in {"selectParent"} {
      var j :| 0 <= j < |fs| && fs[j].key == k;
      assert j == 0;
    }
    assert fs[0].key in ItemKeys(Table[5]);
  }

  /** The texts a table passes to the lookup. */
  function LabelTexts(cs: seq<CategoryEntry>): set<string>
  {
    (set i | 0 <= i < |cs| :: cs[i].text)
    + (set i, j | 0 <= i < |cs| && 0 <= j < |cs[i].items| :: cs[i].items[j].text)
  }

  /** Two lookups that agree on a category's texts in the `editorskit` domain
      build the same category. */
  lemma CategoryValueDependsOnLookups(c: CategoryEntry, tr1: Translator, tr2: Translator)
    requires tr1(c.text, TextDomain) == tr2(c.text, TextDomain)
    requires forall j :: 0 <= j < |c.items| ==>
               tr1(c.items[j].text, TextDomain) == tr2(c.items[j].text, TextDomain)
    ensures CategoryValue(c, tr1) == CategoryValue(c, tr2)
  {
    assert ItemPairs(c.items, tr1) == ItemPairs(c.items, tr2);
  }

  /** The built catalog depends on the lookup only through the translations of
      the table's texts in the `editorskit` domain. */
  lemma CatalogOfDependsOnLookups(cs: seq<CategoryEntry>, tr1: Translator, tr2: Translator)
    requires forall t :: t in LabelTexts(cs) ==> tr1(t, TextDomain) == tr2(t, TextDomain)
    ensures CatalogOf(cs, tr1) == CatalogOf(cs, tr2)
  {
    forall i | 0 <= i < |cs| ensures CategoryValue(cs[i], tr1) == CategoryValue(cs[i], tr2) {
      assert cs[i].text in LabelTexts(cs);
      forall j | 0 <= j < |cs[i].items|
        ensures tr1(cs[i].items[j].text, TextDomain) == tr2(cs[i].items[j].text, TextDomain)
      {
        assert cs[i].items[j].text in LabelTexts(cs);
      }
      CategoryValueDependsOnLookups(cs[i], tr1, tr2);
    }
    assert CategoryPairs(cs, tr1) == CategoryPairs(cs, tr2);
  }

  // ---------------------------------------------------------------------------
  // The injected catalog

  /** Every category's and every item's `name` equals the key it is stored
      under, every label is a lookup in the `editorskit` domain, and every
      feature is enabled. */
  lemma CatalogWellFormed(tr: Translator)
    ensures IsCatalog(Catalog(tr), tr)
  {
    TableNamesMatchKeys();
    CatalogOfIsCatalog(Table, tr);
  }

  /** The sizes of the key sets above. */
  lemma KeySetSizes()
    ensures |{"visibility", "formats", "writing", "options", "tools", "shortcuts"}| == 6
    ensures |{"acf", "devices", "logic", "userState"}| == 4
    ensures |{"clearFormatting", "highlight", "justify", "link", "nonbreakingSpace",
              "subscript", "superscript", "colors", "underline", "uppercase"}| == 10
    ensures |{"readingTime", "headingLabel", "markdown", "transformEmpty"}| == 4
    ensures |{"copy", "navigator", "export", "listBlockFontSize", "listBlockTextColor",
              "mediaTextLayout", "mediaTextLink", "setAsFeatured"}| == 8
    ensures |{"guidelines", "codeHighlight", "customClassNames", "dragAndDropFeatured",
              "height", "autosave", "help", "toggleTitle", "scrollDown"}| == 9
    ensures |{"selectParent"}| == 1
  {
  }

  /** The catalog holds exactly the six categories. */
  lemma CatalogCategories(tr: Translator)
    ensures Catalog(tr).entries.Keys == {"visibility", "formats", "writing", "options", "tools", "shortcuts"}
    ensures |Catalog(tr).entries| == 6
  {
    TableCategoryKeys();
    KeySetSizes();
  }

  /** Each category's `items` array holds exactly the listed features. */
  lemma CatalogItems(tr: Translator)
    ensures ItemsOf(Catalog(tr), "visibility").Keys == {"acf", "devices", "logic", "userState"}
    ensures ItemsOf(Catalog(tr), "formats").Keys ==
              {"clearFormatting", "highlight", "justify", "link", "nonbreakingSpace",
               "subscript", "superscript", "colors", "underline", "uppercase"}
    ensures ItemsOf(Catalog(tr), "writing").Keys == {"readingTime", "headingLabel", "markdown", "transformEmpty"}
    ensures ItemsOf(Catalog(tr), "options").Keys ==
              {"copy", "navigator", "export", "listBlockFontSize", "listBlockTextColor",
               "mediaTextLayout", "mediaTextLink", "setAsFeatured"}
    ensures ItemsOf(Catalog(tr), "tools").Keys ==
              {"guidelines", "codeHighlight", "customClassNames", "dragAndDropFeatured",
               "height", "autosave", "help", "toggleTitle", "scrollDown"}
    ensures ItemsOf(Catalog(tr), "shortcuts").Keys == {"selectParent"}
  {
    TableCategoriesDistinct();
    forall i | 0 <= i < |Table|
      ensures ItemsOf(Catalog(tr), Table[i].key).Keys == ItemKeys(Table[i])
    {
      CatalogOfCategory(Table, tr, i);
    }
    TableVisibilityItems();
    TableFormatsItems();
    TableWritingItems();
    TableOptionsItems();
    TableToolsItems();
    TableShortcutsItems();
  }

  /** The categories hold 4, 10, 4, 8, 9 and 1 features: 36 in all. */
  lemma CatalogItemCounts(tr: Translator)
    ensures |ItemsOf(Catalog(tr), "visibility")| == 4
    ensures |ItemsOf(Catalog(tr), "formats")| == 10
    ensures |ItemsOf(Catalog(tr), "writing")| == 4
    ensures |ItemsOf(Catalog(tr), "options")| == 8
    ensures |ItemsOf(Catalog(tr), "tools")| == 9
    ensures |ItemsOf(Catalog(tr), "shortcuts")| == 1
    ensures |ItemsOf(Catalog(tr), "visibility")| + |ItemsOf(Catalog(tr), "formats")|
          + |ItemsOf(Catalog(tr), "writing")| + |ItemsOf(Catalog(tr), "options")|
          + |ItemsOf(Catalog(tr), "tools")| + |ItemsOf(Catalog(tr), "shortcuts")| == 36
  {
    CatalogItems(tr);
    KeySetSizes();
  }

  /** The catalog depends on the lookup only through the translations of its
      42 label texts in the `editorskit` domain. */
  lemma CatalogDependsOnLookups(tr1: Translator, tr2: Translator)
    requires forall t :: t in LabelTexts(Table) ==> tr1(t, TextDomain) == tr2(t, TextDomain)
    ensures Catalog(tr1) == Catalog(tr2)
  {
    CatalogOfDependsOnLookups(Table, tr1, tr2);
  }
}
