# Country Select field: catalog and value normalisation

This project models the core of the Country Select plugin for Craft CMS 3:
the field base class `CountrySelectBaseOptionsField`. That class does three
things, and the model covers all of them.

- **Catalog.** It builds a fixed table of 251 countries and regions. Each row
  is a two-letter code and an English label. Every label goes through the
  translator (`Craft::t`), and the rows are then sorted in place by label with
  `usort` and `strcasecmp`.
- **Normalisation.** `normalizeValue` turns a stored value into a
  single-selection or a multi-selection object. A value that is already one
  of those is passed through. A string is JSON-decoded if it can be, and the
  result is cast to a list of selected codes. In multi mode every listed code
  becomes a chosen option, labelled by `optionLabel`. In single mode the first
  code becomes the value, unless it is falsy. Both modes attach the full
  catalog, in catalog order, with each row flagged when its code is strictly
  equal to a listed code.
- **Column length.** In multi mode `getContentColumnType` adds up the JSON
  length of selecting every code. Otherwise the column is a plain string.
  For a non-empty list whose codes are non-falsy and need no JSON escaping
  (every catalog code is two ASCII letters) the length is exact. For a list with no
  non-falsy code it is 1, which for an empty list is one less than the two
  characters of `[]`, because the "-1 for the last comma" has no comma to take
  back.

Modules:

- `CaseInsensitive` (`case_insensitive.dfy`): PHP's `strcasecmp`, with
  lemmas showing it is antisymmetric and transitive and ignores ASCII case.
- `CountryTable` (`country_table.dfy`): the 251 rows as written, with a proof
  that the codes are pairwise distinct two-letter codes.
- `Catalog` (`catalog.dfy`): translation, the in-place sort, and
  `TranslatedOptions`, proved to return a sorted permutation of the
  translated table.
- `Fields` (`fields.dfy`): the value types, the specification functions, and
  the class `CountrySelectField` with its state (`options`, `multi`) and
  methods.
- `FieldProperties` (`field_properties.dfy`): lemmas about normalisation,
  label lookup, re-normalisation and the column length.

The two host-library calls are parameters. `Craft::t` is any total function
`t: string -> string`. `Json::decodeIfJson` is any `decode: string ->
Option<RawValue>`, where `None` means "not JSON". A decoded value is PHP null,
a string or a list of strings (`RawValue`).

The table has 251 rows. A multi-selection keeps duplicate codes
(`["GB","GB"]` gives two chosen options, one flagged row). The sort is stated
as sorted plus a permutation; its stability is not stated (see Left out).

The single mode also flags every catalog row whose code is in the stored
list, not only the row of the chosen value. So a stored list `["", "GB"]`
gives a null value with the GB row flagged. `FieldProperties.SingleNormalizeAgain`
is therefore stated for stored values of at most one code.

## Model

| member | source | states |
|---|---|---|
| `CaseInsensitive.StrCaseCmpSwapped` | src/fields/CountrySelectBaseOptionsField.php:418-420 | Swapping the labels given to the comparator negates its result, so "not after" is total. |
| `CaseInsensitive.StrCaseCmpTransitive` | src/fields/CountrySelectBaseOptionsField.php:418-420 | The comparator's "not after" relation is transitive. |
| `CaseInsensitive.StrCaseCmpZeroIff` | src/fields/CountrySelectBaseOptionsField.php:419 | Two labels compare equal exactly when their ASCII lower-cased forms are equal. |
| `CaseInsensitive.StrCaseCmpIgnoresCase` | src/fields/CountrySelectBaseOptionsField.php:419 | A label compares equal to itself and to its lower-cased form. |
| `CountryTable.TableCodes` | src/fields/CountrySelectBaseOptionsField.php:164-414 | The table has 251 rows, and their codes are pairwise distinct, each two upper-case letters. |
| `Catalog.SortByLabel` | src/fields/CountrySelectBaseOptionsField.php:418-420 | `usort` in place: afterwards adjacent rows are in strcasecmp order of their labels, and the array is a permutation of what it was. |
| `Catalog.TranslatedOptions` | src/fields/CountrySelectBaseOptionsField.php:161-423 | The result is a permutation of the table with every label translated, and it is sorted by label. |
| `Catalog.SortedPairwise` | src/fields/CountrySelectBaseOptionsField.php:418-422 | In a sorted catalog every earlier row's label sorts no later than every later row's label, not only adjacent ones. |
| `Catalog.TranslatedCodes` | src/fields/CountrySelectBaseOptionsField.php:163-415 | Translation keeps each code at its row: 251 rows with distinct two-letter codes. |
| `Catalog.PermutationKeepsDistinctCodes` | src/fields/CountrySelectBaseOptionsField.php:418-422 | Reordering rows with distinct codes keeps the codes distinct. |
| `Catalog.CatalogCodes` | src/fields/CountrySelectBaseOptionsField.php:161-423 | Every catalog the method can return has 251 rows with pairwise distinct two-letter codes, whatever the translator. |
| `Catalog.CatalogHasRow` | src/fields/CountrySelectBaseOptionsField.php:161-423 | Each table row is in the catalog with its translated label, at the only position holding its code. |
| `Fields.CountrySelectField.constructor` | src/fields/CountrySelectBaseOptionsField.php:51-56 | `init` sets the options to the translated, sorted catalog; the mode flag is as given. |
| `Fields.CountrySelectField.GetContentColumnType` | src/fields/CountrySelectBaseOptionsField.php:61-81 | In multi mode the column is sized for 1 + Σ(len(code)+3) over rows with a non-falsy code; otherwise a plain string column. |
| `Fields.CountrySelectField.OptionLabel` | src/fields/CountrySelectBaseOptionsField.php:145-156 | The scan returns the lookup result `FindLabel`: null for null, otherwise the first matching label or the query itself. |
| `Fields.CountrySelectField.NormalizeValue` | src/fields/CountrySelectBaseOptionsField.php:86-126 | The loops build exactly the value `Normalize` specifies, for both modes and every input. |
| `FieldProperties.LabelOfFirstMatch` | src/fields/CountrySelectBaseOptionsField.php:147-151 | When some row holds the code, the label is the label of the first such row. |
| `FieldProperties.LabelOfFallback` | src/fields/CountrySelectBaseOptionsField.php:155 | When no row holds the code, the code itself is returned as its label. |
| `FieldProperties.AnnotatedAt` | src/fields/CountrySelectBaseOptionsField.php:114-121 | The attached list has one entry per catalog row, in order, selected iff the code is in the selected list. |
| `FieldProperties.SelectionAt` | src/fields/CountrySelectBaseOptionsField.php:101-105 | The multi-selection has one chosen option per selected value, in input order, labelled by the lookup. |
| `FieldProperties.NormalizeOptionList` | src/fields/CountrySelectBaseOptionsField.php:114-123 | In either mode the attached options have the catalog's length, labels and codes, flagged iff strictly equal to a selected value. |
| `FieldProperties.NormalizeMultiSelection` | src/fields/CountrySelectBaseOptionsField.php:99-106 | Multi mode: one chosen option per selected value, in order, duplicates kept. |
| `FieldProperties.NormalizeSingleValue` | src/fields/CountrySelectBaseOptionsField.php:107-111 | Single mode: the value is the first selected value unless the list is empty or it is falsy; the label is its lookup, or null. |
| `FieldProperties.NormalizePassesThrough` | src/fields/CountrySelectBaseOptionsField.php:88-90 | An already-normalised value is returned unchanged. |
| `FieldProperties.NullSelectsNothing` | src/fields/CountrySelectBaseOptionsField.php:92-121 | Null casts to the empty list: no option flagged, no chosen option, null value and label. |
| `FieldProperties.UnknownCodeSelectsNothing` | src/fields/CountrySelectBaseOptionsField.php:99-121 | A code no row holds flags nothing; in multi mode it is kept as its own label, and in single mode a non-falsy one is kept as the value and as its own label. |
| `FieldProperties.UniqueCodeSelectsOne` | src/fields/CountrySelectBaseOptionsField.php:99-121 | With distinct codes, selecting one row's non-falsy code flags exactly that row and reports its label. |
| `FieldProperties.CatalogCodeSelectsOne` | src/fields/CountrySelectBaseOptionsField.php:99-121 | On the catalog, selecting a table code flags exactly one option, with the translated label, and reports that label. |
| `FieldProperties.UnitedKingdomScenario` | src/fields/CountrySelectBaseOptionsField.php:242 | Normalising the stored string "GB" in single mode gives value GB with the translation of "United Kingdom" as label. |
| `FieldProperties.FranceBeforeUnitedKingdom` | src/fields/CountrySelectBaseOptionsField.php:418-420 | With untranslated labels, France is listed before the United Kingdom. |
| `FieldProperties.MultiNormalizeAgain` | src/fields/CountrySelectBaseOptionsField.php:99-123 | Normalising the list of chosen codes of a multi-selection gives the same multi-selection. |
| `FieldProperties.SingleNormalizeAgain` | src/fields/CountrySelectBaseOptionsField.php:107-123 | For a catalog without falsy codes (every real catalog: `Catalog.CatalogCodes`) and at most one stored code, normalising the chosen value (or null) again gives the same single selection. |
| `FieldProperties.EncodedLengthIsJsonLength` | src/fields/CountrySelectBaseOptionsField.php:64-77 | For a non-empty list, the computed length is exactly the length of the JSON list of all codes, when they need no escaping and none is falsy. |
| `FieldProperties.NoCodesColumnLength` | src/fields/CountrySelectBaseOptionsField.php:64-77 | With no non-falsy code the length passed on is 1; for an empty list that is one less than the length of `[]`. |
| `FieldProperties.EncodedLengthOfCodes` | src/fields/CountrySelectBaseOptionsField.php:68-73 | Each row with a two-letter code adds 5 to the length. |
| `FieldProperties.TwoLetterColumnLength` | src/fields/CountrySelectBaseOptionsField.php:63-77 | For 251 two-letter codes the content length is 1256, the JSON length of all codes. |
| `FieldProperties.CatalogColumnLength` | src/fields/CountrySelectBaseOptionsField.php:63-77 | For the catalog the content length passed on is 1256, the JSON length of all codes selected. |

## Left out

- `Catalog.SortByLabel`: stability is not stated. PHP's `usort` is stable only from PHP 8.0, and Craft CMS 3 also runs on PHP 7. The model sorts by insertion; it does not model PHP's own sort algorithm.
- `Craft::t`: localisation is a function parameter; its message files are not modelled.
- `Json::decodeIfJson`: a function parameter returning null, a string or a list of strings. JSON numbers, booleans and objects are not modelled, nor is PHP type juggling on them.
- The loose `==` in `optionLabel` (line 149) is modelled as string equality. PHP compares two numeric strings by value; the catalog codes are letters, so no catalog row is affected. A null query matches no row; PHP's `null == ""` is not modelled, since no row has an empty code.
- `strcasecmp` and `strlen` work on bytes; the model works on characters. It lower-cases only ASCII letters, as PHP 8 does, and `EncodedLength` counts characters. Every catalog code is two ASCII letters (`Catalog.CatalogCodes`), so the catalog's column length is unaffected.
- `Db::getTextualColumnTypeByContentLength` and `Schema::TYPE_STRING`: only the content length passed to the first is modelled; the choice of column type is the host's.
- `setOptions` mutates the freshly built field-data object; the model builds the value as a datatype and updates its option list, since the object is not shared before it is returned.
- `serializeValue`: it only delegates to the host's base class.
- `getInputHtml`, template rendering, `displayName`, `optionsSettingLabel` and plugin registration (`src/CountrySelect.php`): user interface and host wiring.
- The subclasses `CountrySelectMultiField` and `CountrySelectMultiSelect` set `multi` to true; `CountrySelectRadioButtons` and `CountrySelectDropdown` leave it false; each picks a template. The constructor's `multi` argument stands for that choice. `CountrySelectCheckboxes` is registered in `src/CountrySelect.php` but is not part of this model. `CountrySelectBaseOptions`, which three of them extend, is not part of this model.
- The `$element` argument of `normalizeValue` is unused by the source and left out.
