# EditorsKit features manager, modelled in Dafny

This project models `EditorsKit_Features_Manager`, the part of the EditorsKit
WordPress plugin that tells the block editor which optional features exist.
It has two parts:

- **`register()`** creates the singleton instance once. Its private
  constructor subscribes the `block_editor_settings` handler to the host's
  filter of the same name, at priority 10 with two arguments.
- **`block_editor_settings( $editor_settings, $post )`** is the filter handler.
  When `$editor_settings['editorskit']` is not set, it stores a fixed catalog
  under that key. The catalog has six categories. Each category has a `name`,
  a translated `label` and an `items` array. Each item is a feature descriptor
  with a `name`, a translated `label` and `value` true. When the key is already
  set, the settings come back unchanged.

Files:

- `php_values.dfy` (module `PhpValues`): PHP values (null, bool, int, string,
  string-keyed array), PHP's `isset` on an array key, and the meaning of a
  PHP array literal. When a literal writes a key twice, the later entry wins.
- `catalog.dfy` (module `FeaturesCatalog`): the catalog literal kept as a table.
  Each entry records the key, the `name` written inside the entry, and the
  label text. The table is built into a PHP value through a translation lookup
  `tr`. The module proves the catalog's shape, keys, counts and how it depends
  on the lookup.
- `features_manager.dfy` (module `FeaturesManager`): the handler as a function
  on settings maps, with its lemmas. Registration is modelled by three classes:
  - `FilterRegistry`: the host's table of filter subscriptions.
  - `Manager`: an instance; its constructor subscribes the handler.
  - `Plugin`: holds the static `$instance`.

The translation function `__()` becomes a parameter `tr: Translator`, a
function from (text, text domain) to string. The `$post` argument becomes a
type parameter `Post` that the handler never inspects.

The handler's guard is `isset`, which is false for a key that is present but
holds null. So the model overwrites a null `editorskit` value with the catalog.
A description of the component in terms of "absent" keys would leave a null
value in place. The model follows the code.

## Model

| member | source | states |
|---|---|---|
| `PhpValues.IsSet` | includes/class-editorskit-features-manager.php:82 | `isset` is false for a missing key and for a key holding null, and true for any other value, `false` included. |
| `PhpValues.ArrayLiteral` | includes/class-editorskit-features-manager.php:84-301 | An array literal holds exactly the keys it writes. |
| `PhpValues.ArrayLiteralLastWins` | includes/class-editorskit-features-manager.php:84-301 | An entry whose key is not written again later is stored as written, so for a repeated key the later entry wins. |
| `PhpValues.ArrayLiteralWritten` | includes/class-editorskit-features-manager.php:84-301 | Every value in a built array was written in the literal under that key. |
| `FeaturesCatalog.ItemsAreFeatures` | includes/class-editorskit-features-manager.php:88-109 | Items built from entries whose name equals their key are descriptors: keys exactly name/label/value, `name` equal to the key, a translated label, `value` true. |
| `FeaturesCatalog.CategoryValueIsCategory` | includes/class-editorskit-features-manager.php:85-110 | A category built from a consistent entry has keys exactly name/label/items, `name` equal to its key, a translated label, and only descriptors as items. |
| `FeaturesCatalog.CatalogOfIsCatalog` | includes/class-editorskit-features-manager.php:84-301 | A table whose names match its keys builds a value in which every category and item is well formed as above. |
| `FeaturesCatalog.Descriptor` | includes/class-editorskit-features-manager.php:89-93 | A feature entry builds a descriptor: keys exactly name/label/value, `name` as written, a label looked up in the editorskit domain, `value` true. |
| `FeaturesCatalog.CategoryValue` | includes/class-editorskit-features-manager.php:85-110 | A category entry builds an array with keys exactly name/label/items, `name` as written, a label looked up in the editorskit domain, and `items` holding exactly the entry's item keys. |
| `FeaturesCatalog.CatalogOf` | includes/class-editorskit-features-manager.php:84-301 | The built catalog's category keys are exactly the keys the table writes. |
| `FeaturesCatalog.Catalog` | includes/class-editorskit-features-manager.php:84-301 | The catalog the handler injects (the literal, kept as the constant `Table`) is well formed: every category and item is stored under its own name, with a translated label, and every item's `value` is true. |
| `FeaturesCatalog.CatalogOfCategory` | includes/class-editorskit-features-manager.php:84-301 | A category key written once holds the category built from its entry, whose `items` keys are exactly the entry's item keys. |
| `FeaturesCatalog.CatalogOfFeature` | includes/class-editorskit-features-manager.php:84-301 | An item key written once in its category holds the descriptor built from its entry. |
| `FeaturesCatalog.TableNamesMatchKeys` | includes/class-editorskit-features-manager.php:85-300 | In the literal, every category's and item's `name` is written equal to its key. |
| `FeaturesCatalog.TableCategoriesDistinct` | includes/class-editorskit-features-manager.php:85-300 | The literal writes no category key twice. |
| `FeaturesCatalog.TableCategoryKeys` | includes/class-editorskit-features-manager.php:85-300 | The literal's category keys are exactly visibility, formats, writing, options, tools and shortcuts. |
| `FeaturesCatalog.TableVisibilityItems` | includes/class-editorskit-features-manager.php:88-109 | The visibility items are exactly acf, devices, logic, userState. |
| `FeaturesCatalog.TableFormatsItems` | includes/class-editorskit-features-manager.php:114-165 | The formats items are exactly the ten listed format features. |
| `FeaturesCatalog.TableWritingItems` | includes/class-editorskit-features-manager.php:170-191 | The writing items are exactly readingTime, headingLabel, markdown, transformEmpty. |
| `FeaturesCatalog.TableOptionsItems` | includes/class-editorskit-features-manager.php:196-237 | The options items are exactly the eight listed block options. |
| `FeaturesCatalog.TableToolsItems` | includes/class-editorskit-features-manager.php:242-288 | The tools items are exactly the nine listed tools. |
| `FeaturesCatalog.TableShortcutsItems` | includes/class-editorskit-features-manager.php:293-299 | The shortcuts items are exactly selectParent. |
| `FeaturesCatalog.CategoryValueDependsOnLookups` | includes/class-editorskit-features-manager.php:87-108 | Two lookups that agree on a category's texts in the editorskit domain build the same category. |
| `FeaturesCatalog.CatalogOfDependsOnLookups` | includes/class-editorskit-features-manager.php:84-301 | Two lookups that agree on the table's label texts in the editorskit domain build the same catalog. |
| `FeaturesCatalog.CatalogWellFormed` | includes/class-editorskit-features-manager.php:86-298 | In the catalog, every category's and item's `name` equals its key, every label is a lookup in the editorskit domain, and every `value` is true. |
| `FeaturesCatalog.CatalogCategories` | includes/class-editorskit-features-manager.php:85-300 | The catalog holds exactly the six categories, and no other key. |
| `FeaturesCatalog.CatalogItems` | includes/class-editorskit-features-manager.php:85-300 | Each category's `items` holds exactly its listed feature keys. |
| `FeaturesCatalog.CatalogItemCounts` | includes/class-editorskit-features-manager.php:85-300 | The categories hold 4, 10, 4, 8, 9 and 1 features, 36 in all. |
| `FeaturesCatalog.CatalogDependsOnLookups` | includes/class-editorskit-features-manager.php:87-296 | The catalog depends on the lookup only through the translations of its label texts in the editorskit domain. |
| `FeaturesManager.BlockEditorSettings` | includes/class-editorskit-features-manager.php:81-305 | The result has the input's keys plus `editorskit`, and every other key keeps its value. A set key leaves the settings identical. An absent or null key gets the catalog. Afterwards the key is always set. |
| `FeaturesManager.BlockEditorSettingsIdempotent` | includes/class-editorskit-features-manager.php:82-304 | Applying the handler to its own result, with any post and lookup, returns that result unchanged. |
| `FeaturesManager.BlockEditorSettingsIgnoresPost` | includes/class-editorskit-features-manager.php:81-305 | The post argument never affects the result. |
| `FeaturesManager.BlockEditorSettingsDependsOnLookups` | includes/class-editorskit-features-manager.php:81-305 | The result depends only on the input settings and the lookups of the label texts in the editorskit domain. |
| `FeaturesManager.InjectedCatalog` | includes/class-editorskit-features-manager.php:82-301 | When the key is not set, the stored value is a well-formed catalog with exactly the six categories and 36 features. |
| `FeaturesManager.MarkdownOnEmptySettings` | includes/class-editorskit-features-manager.php:181-185 | On empty settings, writing/items/markdown is named markdown, labelled by the lookup of "Markdown" in editorskit, and enabled. |
| `FeaturesManager.CountAppend` | includes/class-editorskit-features-manager.php:70 | One more subscription adds exactly one occurrence of itself and of nothing else. |
| `FeaturesManager.FilterRegistry.AddFilter` | includes/class-editorskit-features-manager.php:70 | A subscription is appended to the host's table, and nothing else changes. |
| `FeaturesManager.Manager.constructor` | includes/class-editorskit-features-manager.php:65-71 | Constructing an instance subscribes the handler (the constant `SettingsFilter`) to block_editor_settings at priority 10 with 2 arguments, exactly once. |
| `FeaturesManager.Plugin.constructor` | includes/class-editorskit-features-manager.php:29 | Before any call to register there is no instance. |
| `FeaturesManager.Plugin.Register` | includes/class-editorskit-features-manager.php:34-38 | Afterwards an instance exists. A first call creates it and subscribes once. Later calls change neither the instance nor the host. Valid() is kept: after one or more calls the handler is subscribed exactly once. |
| `FeaturesManager.RegisterTwice` | includes/class-editorskit-features-manager.php:34-38 | Loading the class and calling register twice appends exactly the handler's subscription to the host's table and nothing else, and leaves one instance with Valid() kept after two calls. |

## Left out

- The constructor's assignments of `version`, `slug` and `url` (lines 66-68) are not modelled. They call host functions, and the fields are never read.
- The direct-access guard (lines 12-14) and the load-time `register()` call (line 309) are process plumbing. `RegisterTwice` shows that call followed by one more.
- Translation: `__()` is the parameter `tr`. Locale lookup is not modelled.
- WordPress filters: only the subscription list that `add_filter` appends to is modelled. Running the filters by priority is host code and is not modelled.
- PHP arrays keep insertion order; the model uses maps, so the order of categories and items is not modelled.
- The settings value covers null, booleans, integers, strings and string-keyed arrays. Floats, objects and integer keys are not modelled. A non-array `$editor_settings` is not modelled.
- The `add_filter` callback is `array( $this, 'block_editor_settings' )`. `SettingsFilter` records only the method name, so its tie to the particular instance is not modelled.
- `FeaturesManager.Plugin.Valid` counts subscriptions relative to those the host held when the class was loaded (`baseline`). Other code that removes filters between calls is outside the model.
