# Faceted catalogue search over Elasticsearch, in Dafny

This project models the core of `elasticfilter-btitrix`, a PHP library that puts Elasticsearch
behind the smart filter of a Bitrix catalogue. The model and its proofs cover six areas.

- **Filter decoding (`UrlParser`).** The smart-filter URL (`slug-from-N-to-M/slug-is-a-or-b/…`)
  becomes a filter map. The request map is then post-processed:
  - the ajax branch;
  - the `section` and `category` segments;
  - `_max`/`_min` range pruning;
  - the `collection` clean-up;
  - the constant `foto = Y`.
- **Query building (`SearchBuilder`).** Each filter key becomes a MUST clause of a bool query,
  chosen by the field's declared type. Two key forms are rewritten:
  - a `_from`/`_to` suffix becomes a `gte`/`lte` range;
  - an `offers_x` key becomes a nested `offers` clause on `offers.x`.
- **Aggregation building (`AggregationBuilder`).** Every facet field gets filter aggregations.
  Each one re-runs the query builder on the filter with that field's own keys removed, and wraps
  the field's own aggregation body: min/max, nested terms, terms of size 1000, or the doubly
  nested body of an offer field.
- **Facet decoding (`CatalogAggregationResource`).** The aggregation response becomes the
  `VALUES` of each catalogue property. It covers:
  - range bounds;
  - `value||title` bucket keys;
  - a running `SORT`;
  - ordering by label.
- **Schema model.** This part covers:
  - the descriptors `IndexMappingElement` and `IndexMappingProperty`, sharing the `Mapable`
    shape;
  - the recursive `toArray` serialiser;
  - `IndexConfig`;
  - the closed set of field types (`TypeEnum`);
  - the paging and sort state of a search (`SearchProperty`).
- **Bitrix side.** Two classes are covered, with their DB rows as inputs:
  - *the configuration generator*: type and field-kind rules, the nested sub-field shape, the
    default fields and the `offers` element;
  - *the exporter*: `prepareValue`/`prepareComputed`, `dataIsEmpty`, `modifyDataForElastic`,
    the section fold and code de-duplication, and the grouping of offers into update batches.

PHP values are the datatype `Php.Value`. An ordered PHP array with string keys is `OMap`, a
sequence of pairs. `Put` on an existing key keeps its position; on a new key it appends.
`explode`/`implode`/`str_replace` are `Split`/`Join`/`ReplaceAll`. `(int)` is approximated by
`IntOf`/`ToInt`; "## Left out" says how. PHP semantics are those of PHP 7.4.
Objects whose setters update fields in place are classes: the two descriptors, `IndexConfig`,
`SearchProperty`, `SearchBuilder`, `AggregationBuilder`, `CatalogAggregationResource`, the
exporter's section cache and the generator. The mapping collection holds value snapshots
(`Mapable.Mapable`) of the descriptors. Loops in the source's imperative code are methods with loop
invariants, each proved equal to a specification function. The properties are proved about those
functions. The loops inside the recursive `prepareAggregateType` and `prepareOfferAggregateType`
are the recursive functions `SubAggs` and `OfferSubAggs`, like the recursion around them.
A `null` handed to a typed DSL parameter (`BoolQuery::add`, the `NestedQuery` constructor) is a
TypeError in the source; the model returns `None` there.

## Model

| member | source | states |
|---|---|---|
| UrlParser.SplitSeps | src/UrlParser.php:24 | `preg_split` with captured separators always yields at least one piece |
| UrlParser.UnsplitSplitSeps | src/UrlParser.php:24 | rejoining the pieces and the captured words gives back the token |
| UrlParser.SplitSepsWellSplit | src/UrlParser.php:24 | every split has the split shape: no piece contains a separator match |
| UrlParser.SplitSepsUnsplit | src/UrlParser.php:24 | the other round trip: well-formed pieces are split back out of the token they form |
| UrlParser.FirstSep | src/UrlParser.php:24 | the leftmost `-(from\|to\|is\|or)-` match at or after a position, and no match before it |
| UrlParser.ConvertUrlToElasticParam | src/UrlParser.php:16-51 | the loop over `/`-tokens, then the `array_map` collapse, computes `UrlToParams(url)` |
| UrlParser.EmptyUrl | src/UrlParser.php:16-50 | the empty URL decodes to the empty map |
| UrlParser.PlainToken | src/UrlParser.php:29-40 | a token with no separator adds nothing, except the bare words `to` (sets `to_to` to 0) and `is` (sets `is` to an empty list) |
| UrlParser.FromPair | src/UrlParser.php:29-33 | `slug-from-A-to-B` and `slug-from-A-or-B` set `slug_from` to (int)A and `slug_to` to (int)B |
| UrlParser.FromOnly | src/UrlParser.php:29-33 | `slug-from-A` sets only `slug_from` |
| UrlParser.ToOnly | src/UrlParser.php:34-35 | `slug-to-B` without `from` sets only `slug_to` to (int)B |
| UrlParser.IsList | src/UrlParser.php:36-40 | `slug-is-v1-or-…-or-vn` maps `slug` to the values in order, with the `or` words dropped |
| UrlParser.CollapseSingleton | src/UrlParser.php:42-48 | after the collapse pass, a one-value list is stored as the bare value |
| UrlParser.TokensLeftToRight | src/UrlParser.php:20-41 | a URL is its tokens decoded left to right, a later key overwriting an earlier one in place, then collapsed |
| UrlParser.RangeUrl | src/UrlParser.php:16-51 | a whole one-token URL `slug-from-LO-to-HI` decodes to exactly the two bounds, in that order |
| UrlParser.NoNullValues | src/UrlParser.php:16-51 | no decoded value is null |
| UrlParser.DropOnValues | src/UrlParser.php:69-72 | the ajax filter drops exactly the entries whose value is `on` |
| UrlParser.BaseFromRequest | src/UrlParser.php:66-83 | the three-way branch on `ajax` and the path argument computes `BaseParams` |
| UrlParser.AjaxKeepsRequest | src/UrlParser.php:68-78 | in an ajax call every key other than `ajax`, `gender` and `age_group` keeps its request value unless that value is `on`; absent keys stay absent |
| UrlParser.AjaxAdult | src/UrlParser.php:68-78 | in an ajax call whose decoded path has `age_group = adult` and a `gender`, the base takes `gender` from the path and `age_group` becomes the list `[adult]`; otherwise `gender` and `age_group` keep a request value that is not `on`, and stay absent when the request lacks them |
| UrlParser.NoNullBase | src/UrlParser.php:66-83 | a null-free request gives a null-free base map, so `isset` means present |
| UrlParser.DropPathsRemoves | src/UrlParser.php:86-92 | both path keys are gone after the two `unset`s |
| UrlParser.TakeSections | src/UrlParser.php:94-100 | the `array_pop`/`array_shift` steps compute `SectionStep` |
| UrlParser.SectionStepSpec | src/UrlParser.php:94-100 | `category` becomes the last segment exactly when it is empty, there are two or more segments and the request is not ajax `y`; `section` becomes the first remaining segment |
| UrlParser.CollectRemovals | src/UrlParser.php:102-116 | the first pruning pass builds the removal list key by key, in map order |
| UrlParser.RemoveListMembers | src/UrlParser.php:102-116 | a key is on the removal list exactly when it is a key meeting the `_max` rule or the `_min` rule, or that key's `_max`/`_min` partner |
| UrlParser.UnsetAll | src/UrlParser.php:118-120 | the second pass unsets exactly the listed keys |
| UrlParser.RemoveAll | src/UrlParser.php:118-120 | a listed key is absent afterwards and every other key keeps its value |
| UrlParser.PruneSpec | src/UrlParser.php:102-120 | pruning keeps every key not on the removal list, with its value |
| UrlParser.PruneMaxPair | src/UrlParser.php:104-107 | equal integer values under `key` and `key_max` remove both keys |
| UrlParser.PruneMinPair | src/UrlParser.php:109-115 | equal `key`/`key_min` integers remove both keys when the matching `_to`/`_to_max` pair is equal too |
| UrlParser.CollectionApostrophes | src/UrlParser.php:123-125 | a string `collection` has every apostrophe replaced by `_` |
| UrlParser.GetElasticParamsFromRequest | src/UrlParser.php:58-130 | the whole request post-processing computes `ElasticParams` |
| UrlParser.FotoAlwaysY | src/UrlParser.php:127 | the result always has `foto = 'Y'`, overriding any incoming `foto` |
| UrlParser.NoPathKeys | src/UrlParser.php:86-127 | the result never holds `SECTION_CODE_PATH` or `SMART_FILTER_PATH` |
| SearchBuilder.GetBottom | src/Builders/SearchBuilder.php:172-179 | `gte` exactly for keys ending in `_from`, `lte` otherwise |
| SearchBuilder.CleanKey | src/Builders/SearchBuilder.php:184-187 | strips one `_from` or `_to` suffix and leaves any other key unchanged |
| SearchBuilder.CleanKeyOfBound | src/Builders/SearchBuilder.php:164-187 | `field_from` and `field_to` are ranges that clean back to `field`, with bottoms `gte` and `lte` |
| SearchBuilder.AddQueryByType | src/Builders/SearchBuilder.php:127-159 | a clause exists exactly for the bool, integer, float, keyword and nested types. Bool gives `term(!empty)`; integer gives `range` when a bound was named and `term` otherwise; keyword gives `terms` for arrays and `term` otherwise; float gives the same two forms over the cast value; nested gives a nested query on `key.value`, with `terms` for an array and `term` otherwise |
| SearchBuilder.AddQueryOfferByType | src/Builders/SearchBuilder.php:114-119 | the sub-field's clause on the key rewritten `offers_`→`offers.`, wrapped in a nested query on `offers` |
| SearchBuilder.OffersTable | src/Builders/SearchBuilder.php:42-50 | the offers table keys the sub-fields of every `offers` element by name, a later one winning |
| SearchBuilder.SearchBuilder.constructor | src/Builders/SearchBuilder.php:38-51 | the field table is the mapping keyed by name, and the offers table is as above |
| SearchBuilder.SearchBuilder.AddOfferEntry | src/Builders/SearchBuilder.php:78-84 | the nested offers clause of an `offers_` key, or failure when its sub-field is unknown |
| SearchBuilder.SearchBuilder.AddFieldEntry | src/Builders/SearchBuilder.php:87-99 | the typed clause of the cleaned key, looked up in the field table; a field type without a clause fails, as `BoolQuery::add(null)` does |
| SearchBuilder.SearchBuilder.AddEntry | src/Builders/SearchBuilder.php:72-99 | one entry's clauses: the offers clause first, then the field's; it fails on an integer key (rejected by `isRange(string $key)`) and when either clause is missing |
| SearchBuilder.SearchBuilder.GetBoolQuery | src/Builders/SearchBuilder.php:66-106 | the loop's MUST list is `Clauses`: each entry's clauses, in parameter order, and no list once an entry fails (an integer key, such as `12` from a `12-is-red` token, fails) |
| SearchBuilder.PlainKeyClauses | src/Builders/SearchBuilder.php:72-99 | a key without `offers_` fails when it is an integer key (`isRange(string $key)` rejects it under strict types); otherwise it adds nothing when it is skipped (unknown field, or the request's `sort`), and else exactly the field's typed clause, failing when that type has none |
| SearchBuilder.OfferKeyClauses | src/Builders/SearchBuilder.php:78-84 | an `offers_` key succeeds exactly when its nested offers clause exists and the field step is skipped or has a clause; it then adds the offers clause followed by the field's clause, if any |
| SearchBuilder.ClausesFailPersists | src/Builders/SearchBuilder.php:70-100 | once an entry fails, the whole query fails |
| AggregationBuilder.PrepareAggregateType | src/Builders/AggregationBuilder.php:170-205 | a number gives `key_from` (min) and `key_to` (max) over `key`; nested gives exactly one nested aggregation with name and path `key`; anything else gives terms of size 1000 |
| AggregationBuilder.PrepareNested | src/Builders/AggregationBuilder.php:186-196 | a nested field gives exactly `[(key, nested(key, key, SubAggs over all its sub-fields))]` |
| AggregationBuilder.SubAggNamedAfter | src/Builders/AggregationBuilder.php:186-196 | each sub-aggregation of the first n sub-fields has an index i < n of a sub-field other than `title`/`value` whose `key.<sub-field>` prefixes-or-precedes its name |
| AggregationBuilder.SubAggsHas | src/Builders/AggregationBuilder.php:186-196 | for i < n, each aggregation of the i-th sub-field, when it is not `title`/`value`, is among the sub-aggregations built from the first n sub-fields |
| AggregationBuilder.PrepareNames | src/Builders/AggregationBuilder.php:170-205 | every aggregation is stored under its own name, which starts with `key` |
| AggregationBuilder.SubAggsNames | src/Builders/AggregationBuilder.php:186-196 | every sub-aggregation of a nested field comes from a sub-field other than `title`/`value`, and is named under `key.<sub-field>` |
| AggregationBuilder.SubAggsComplete | src/Builders/AggregationBuilder.php:186-196 | the converse: every aggregation of every sub-field other than `title`/`value` is among the sub-aggregations |
| AggregationBuilder.GeneratedNestedAggs | src/Builders/AggregationBuilder.php:186-196 | for the generated nested shape (`title`, `value`, `computed`, `keyId`) the body is one nested aggregation holding terms on `key.computed` and `key.keyId`, size 1000 |
| AggregationBuilder.PrepareOfferAggregateType | src/Builders/AggregationBuilder.php:136-162 | one entry `offers.<name>`: nested on `offers` ⊃ nested on `offers.<name>` ⊃ the sub-field aggregations |
| AggregationBuilder.OfferSubAggsComputed | src/Builders/AggregationBuilder.php:144-148 | for a field in the filter, only the `computed` sub-fields contribute |
| AggregationBuilder.Computed | src/Builders/AggregationBuilder.php:144-148 | only sub-fields named `computed` are kept |
| AggregationBuilder.InFilter | src/Builders/AggregationBuilder.php:57-64 | exactly the elements with `hasInFilter` are kept |
| AggregationBuilder.FirstOffers | src/Builders/AggregationBuilder.php:68-73 | the first element named `offers` (no earlier element has the name), or none when no element has that name |
| AggregationBuilder.CollectInFilter | src/Builders/AggregationBuilder.php:64-66 | the loop puts every element in the filter into the facet map by name, in order |
| AggregationBuilder.AggregationBuilder.constructor | src/Builders/AggregationBuilder.php:49-79 | it keeps a given query builder or builds one from the config, and fills `filterFields` |
| AggregationBuilder.FilterFieldsGet | src/Builders/AggregationBuilder.php:57-78 | a facet name maps to the last offers sub-field in the filter with that name, else to the last top-level field in the filter with it |
| AggregationBuilder.FilterFieldsInFilter | src/Builders/AggregationBuilder.php:57-78 | every facet field is in the filter |
| AggregationBuilder.ExcludeKeys | src/Builders/AggregationBuilder.php:105-117 | the facet's own key is removed, or both bounds when it is absent, and `offers_<name>` for an offer field; every other key keeps its value |
| AggregationBuilder.OwnValueIgnored | src/Builders/AggregationBuilder.php:105-121 | changing the selected value of a facet does not change that facet's aggregations |
| AggregationBuilder.OwnBoundIgnored | src/Builders/AggregationBuilder.php:108-119 | neither bound of an unselected facet changes that facet's aggregations |
| AggregationBuilder.ExcludeBound | src/Builders/AggregationBuilder.php:110-113 | excluding after setting a bound of an unselected facet is excluding without it |
| AggregationBuilder.Wrap | src/Builders/AggregationBuilder.php:104-122 | one filter aggregation per produced aggregation, under its name, filtered by the facet's excluded query |
| AggregationBuilder.AggregationBuilder.AddFacet | src/Builders/AggregationBuilder.php:94-122 | the inner loop computes `FacetAggs` for one facet |
| AggregationBuilder.AggregationBuilder.Build | src/Builders/AggregationBuilder.php:86-130 | the result exists exactly when every facet's query can be built (no filter key of a clause-less type), and then `all_products` holds `BuildAggs`: the facets' filter aggregations, in facet order |
| AggregationBuilder.BuildAggsFailPersists | src/Builders/AggregationBuilder.php:93-123 | one failing facet fails the whole build |
| CatalogAggregationResource.Output | src/Resources/CatalogAggregationResource.php:109-117 | only `VALUES` of the row changes, and it changes only when there are values |
| CatalogAggregationResource.RangeValues | src/Resources/CatalogAggregationResource.php:172-202 | `MAX` comes from `<code>_to` and `MIN` from `<code>_from`, each only when that aggregation is present; every other entry is kept |
| CatalogAggregationResource.Project | src/Resources/CatalogAggregationResource.php:102-107 | the split arrays have exactly the bucket keys |
| CatalogAggregationResource.ProjectGet | src/Resources/CatalogAggregationResource.php:102-106 | under a bucket's key the split array holds that bucket's part when no later bucket has the key |
| CatalogAggregationResource.ProjectPointwise | src/Resources/CatalogAggregationResource.php:102-106 | with distinct bucket keys, the split array is the buckets' parts, one per bucket, in bucket order |
| CatalogAggregationResource.SplitBuckets | src/Resources/CatalogAggregationResource.php:99-107 | the loop fills counts, raw values and titles under each bucket's key, with exactly the parts `Project` gives |
| CatalogAggregationResource.SplitComputedKey | src/Resources/CatalogAggregationResource.php:103 | `v\|\|t` splits back into `v` and `t` when neither holds `\|\|` and `v` does not end with `\|` |
| CatalogAggregationResource.BucketParts | src/Resources/CatalogAggregationResource.php:103-106 | a bucket keyed `v\|\|t` yields the raw value `v` and the title `t` |
| CatalogAggregationResource.BucketNoTitle | src/Resources/CatalogAggregationResource.php:103-106 | a key without `\|\|` is its own raw value and has no title |
| CatalogAggregationResource.CountUpTo | src/Resources/CatalogAggregationResource.php:139-141 | a bucket with a count uses it; otherwise the count of the previous bucket carries over |
| CatalogAggregationResource.CountNoneSet | src/Resources/CatalogAggregationResource.php:139-141 | before any bucket with a count, the count is null |
| CatalogAggregationResource.CountCarried | src/Resources/CatalogAggregationResource.php:139-141 | the count used is the one of the last earlier bucket that had one |
| CatalogAggregationResource.BucketToItem | src/Resources/CatalogAggregationResource.php:99-158 | a bucket `v\|\|t` with count `c` (no later bucket with value `v`) becomes the entry under `v` with `SORT` 4+2i, and its item array is `CONTROL_ID`, `CONTROL_NAME`, `HTML_VALUE`, `VALUE`/`UPPER` from a non-empty title, `URL_ID`, `ELEMENT_COUNT = c` |
| CatalogAggregationResource.BucketEntryUnder | src/Resources/CatalogAggregationResource.php:99-107 | the same entry, over the decoded nested values |
| CatalogAggregationResource.FilledBucket | src/Resources/CatalogAggregationResource.php:130-158 | the fill loop puts that entry under `v` |
| CatalogAggregationResource.FillEntry | src/Resources/CatalogAggregationResource.php:130-158 | the entry under the i-th raw value is that bucket's, with `SORT` 4 + 2i, title fallback to the value, and its count, unless a later bucket has the same raw value |
| CatalogAggregationResource.FillUntouched | src/Resources/CatalogAggregationResource.php:130-158 | a raw value no bucket has keeps the entry the row had |
| CatalogAggregationResource.FillStep | src/Resources/CatalogAggregationResource.php:130-158 | after one more bucket, the filled array is the previous one with that bucket's entry put under its raw value |
| CatalogAggregationResource.FillLoopStep | src/Resources/CatalogAggregationResource.php:130-158 | from the loop's `$docCount` and `$sort` after n buckets, the next count is carried over unless the bucket has one, and the next entry has `SORT` `$sort + 2` |
| CatalogAggregationResource.PutsLast | src/Resources/CatalogAggregationResource.php:131-158 | of successive writes into the nested array, the last one under a key is what that key holds |
| CatalogAggregationResource.PutsMiss | src/Resources/CatalogAggregationResource.php:131-158 | a key no write touches keeps its earlier value |
| CatalogAggregationResource.ProjectedBucket | src/Resources/CatalogAggregationResource.php:99-107 | the i-th bucket's raw value, count and title are what the split arrays hold for it, and no later bucket has the same raw value |
| CatalogAggregationResource.GetDataByBuckets | src/Resources/CatalogAggregationResource.php:128-162 | the loop with its running `$sort` computes `FillUpTo` over all buckets |
| CatalogAggregationResource.NestedValuesPresent | src/Resources/CatalogAggregationResource.php:102-110 | when there is a bucket or the row had `VALUES`, `VALUES` exists for `uasort` |
| CatalogAggregationResource.ComparatorAntisymmetric | src/Resources/CatalogAggregationResource.php:110-116 | the `uasort` comparator flips sign when its arguments swap, given that `strnatcasecmp` does |
| CatalogAggregationResource.Insert | src/Resources/CatalogAggregationResource.php:110-116 | one insertion step keeps the multiset and extends the in-order prefix by one |
| CatalogAggregationResource.Sorted | src/Resources/CatalogAggregationResource.php:110-116 | the sorted copy is a permutation of the entries, each in order with the next |
| CatalogAggregationResource.SortValues | src/Resources/CatalogAggregationResource.php:110-116 | the in-place sort keeps the (key, entry) pairs as a multiset and leaves each in order with the next |
| CatalogAggregationResource.ParseNestedResult | src/Resources/CatalogAggregationResource.php:96-118 | the row's `VALUES` are the decoded buckets, reordered by the comparator |
| CatalogAggregationResource.DecodeProperty | src/Resources/CatalogAggregationResource.php:49-73 | the route by type and offer-ness: range rows, kept rows, and nested rows looked up at `[c][c]` or `[o][o][o]` |
| CatalogAggregationResource.DecodeAll | src/Resources/CatalogAggregationResource.php:49-73 | one decoded row per property, keys kept |
| CatalogAggregationResource.CatalogAggregationResource.constructor | src/Resources/CatalogAggregationResource.php:31-35 | the properties and the config are stored |
| CatalogAggregationResource.CatalogAggregationResource.ToArray | src/Resources/CatalogAggregationResource.php:41-77 | an empty `all_products` gives `[]`; otherwise the result is `count` (`hits.total.value ?? 0`) and one decoded item per property, keys kept |
| TypeEnum.ParseType | src/TypeEnum.php:8-15 | a recognised string is the name of the type it reads as |
| TypeEnum.ParseTypeName | src/TypeEnum.php:8-15 | every type's mapping string reads back as that type |
| TypeEnum.TypeNameInjective | src/TypeEnum.php:8-15 | the eight mapping strings are pairwise distinct |
| Mapable.LastNamed | src/Config/MapableToArray.php:34-36 | the descriptor a name-keyed array keeps is one with that name, and there is none when no descriptor has it |
| Mapable.ByName | src/Config/MapableToArray.php:34-36 | keying descriptors by name keeps, for each name, the last descriptor with it |
| Mapable.PutAllAppend | src/Config/IndexConfig.php:125-127 | keying two runs one after the other is keying their concatenation |
| MapableToArray.HeaderKeys | src/Config/MapableToArray.php:12-26 | the header holds `type`, `enabled => false` only when disabled, and `normalizer`/`analyzer` only when set |
| MapableToArray.HeaderEntries | src/Config/MapableToArray.php:12-26 | the header uses only mapping keys, never `properties` |
| MapableToArray.ToArrayKeys | src/Config/MapableToArray.php:10-42 | `type` is always the type; `enabled => false` appears exactly for a disabled descriptor; `normalizer` and `analyzer` appear exactly when set; no key outside the five |
| MapableToArray.ToArrayProperties | src/Config/MapableToArray.php:29-39 | `properties` is present exactly when there are children |
| MapableToArray.PropsArrayGet | src/Config/MapableToArray.php:29-39 | each child name maps to the serialisation of the last child with that name; other names are absent |
| MapableToArray.PutStepsGet | src/Config/MapableToArray.php:29-39 | putting children one by one under their names, from the empty array, leaves under each name the value of the last child with it and nothing under other names |
| IndexConfig.MappingArray | src/Config/IndexConfig.php:121-130 | each element name maps to the `toArray()` of the last element with it; other names are absent |
| IndexConfig.MappingArrayNoDupKeys | src/Config/IndexConfig.php:121-130 | one entry per distinct name |
| IndexConfig.PropsArrayIsMappingArray | src/Config/MapableToArray.php:29-39 | a descriptor's `properties` array is the same fold as `getMappingForIndex` |
| IndexConfig.IndexConfig.constructor | src/Config/IndexConfig.php:14-37 | name, mapping, settings and both iblock ids start unset |
| IndexConfig.IndexConfig.GetMappingForIndex | src/Config/IndexConfig.php:121-130 | the loop computes `MappingArray` of the mapping |
| IndexConfig.IndexConfig.SetName | src/Config/IndexConfig.php:135-138 | `getName` returns what was set; nothing else changes |
| IndexConfig.IndexConfig.SetMapping | src/Config/IndexConfig.php:143-146 | `getMapping` returns the collection that was set |
| IndexConfig.IndexConfig.SetSettings | src/Config/IndexConfig.php:151-154 | `getSettings` returns what was set |
| IndexConfig.IndexConfig.SetIBlockId | src/Config/IndexConfig.php:159-170 | `getIBlockId` returns what was set |
| IndexConfig.IndexConfig.SetOfferIBlockId | src/Config/IndexConfig.php:175-186 | `getOfferIBlockId` returns what was set |
| IndexMappingElement.IndexMappingElement.constructor | src/Config/IndexMappingElement.php:18-131 | defaults: enabled, not in filter or search, sort 0, `showInSection`/`propertyType`/`propertyId`/function null, the rest unset |
| IndexMappingElement.IndexMappingElement.SetName | src/Config/IndexMappingElement.php:136-150 | `getName` returns what was set, the same object is returned and only `name` changes |
| IndexMappingElement.IndexMappingElement.SetTitle | src/Config/IndexMappingElement.php:155-169 | the title round-trips; chainable; only `title` changes |
| IndexMappingElement.IndexMappingElement.SetHint | src/Config/IndexMappingElement.php:174-188 | the hint (or null) round-trips; chainable |
| IndexMappingElement.IndexMappingElement.SetType | src/Config/IndexMappingElement.php:193-207 | the type round-trips; chainable |
| IndexMappingElement.IndexMappingElement.SetShowingType | src/Config/IndexMappingElement.php:212-226 | the showing type round-trips; chainable |
| IndexMappingElement.IndexMappingElement.SetProperties | src/Config/IndexMappingElement.php:231-245 | the properties round-trip; chainable |
| IndexMappingElement.IndexMappingElement.SetNormalizer | src/Config/IndexMappingElement.php:250-264 | the normalizer (or null) round-trips; chainable |
| IndexMappingElement.IndexMappingElement.SetAnalyzer | src/Config/IndexMappingElement.php:269-283 | the analyzer round-trips; chainable |
| IndexMappingElement.IndexMappingElement.SetBitrixIblockId | src/Config/IndexMappingElement.php:289-303 | the iblock id round-trips; chainable |
| IndexMappingElement.IndexMappingElement.SetBitrixIblockField | src/Config/IndexMappingElement.php:308-322 | the iblock field round-trips; chainable |
| IndexMappingElement.IndexMappingElement.SetTargetClass | src/Config/IndexMappingElement.php:328-342 | the target class round-trips; chainable |
| IndexMappingElement.IndexMappingElement.SetTargetMethod | src/Config/IndexMappingElement.php:347-361 | the target method round-trips; chainable |
| IndexMappingElement.IndexMappingElement.SetHasInFilter | src/Config/IndexMappingElement.php:366-380 | `isHasInFilter` returns what was set; it is false until then |
| IndexMappingElement.IndexMappingElement.SetHasInSearch | src/Config/IndexMappingElement.php:385-399 | `isHasInSearch` returns what was set |
| IndexMappingElement.IndexMappingElement.SetShowInSection | src/Config/IndexMappingElement.php:404-418 | the section array (or null) round-trips |
| IndexMappingElement.IndexMappingElement.SetBitrixIblockPropertyLink | src/Config/IndexMappingElement.php:423-437 | the linked iblock (or null) round-trips |
| IndexMappingElement.IndexMappingElement.SetBitrixIblockFieldType | src/Config/IndexMappingElement.php:442-456 | the field kind (or null) round-trips |
| IndexMappingElement.IndexMappingElement.SetBitrixHL | src/Config/IndexMappingElement.php:461-472 | the highload table round-trips |
| IndexMappingElement.IndexMappingElement.SetSort | src/Config/IndexMappingElement.php:477-488 | the sort round-trips |
| IndexMappingElement.IndexMappingElement.SetPropertyType | src/Config/IndexMappingElement.php:493-504 | the property type round-trips |
| IndexMappingElement.IndexMappingElement.SetPropertyId | src/Config/IndexMappingElement.php:509-520 | the property id round-trips |
| IndexMappingElement.IndexMappingElement.SetFunction | src/Config/IndexMappingElement.php:525-536 | the callable round-trips |
| IndexMappingElement.IndexMappingElement.SetEnabled | src/Config/IndexMappingElement.php:541-552 | `isEnabled` returns what was set, so it is false only after `setEnabled(false)` |
| IndexMappingProperty.IndexMappingProperty.constructor | src/Config/IndexMappingProperty.php:17-45 | normalizer, analyzer and properties are null until set |
| IndexMappingProperty.IndexMappingProperty.SetName | src/Config/IndexMappingProperty.php:51-65 | `getName` returns what was set, the same object is returned and only `name` changes |
| IndexMappingProperty.IndexMappingProperty.SetType | src/Config/IndexMappingProperty.php:70-84 | the type round-trips; chainable |
| IndexMappingProperty.IndexMappingProperty.SetNormalizer | src/Config/IndexMappingProperty.php:89-102 | the normalizer round-trips; chainable |
| IndexMappingProperty.IndexMappingProperty.SetProperties | src/Config/IndexMappingProperty.php:107-120 | the properties round-trip; chainable |
| IndexMappingProperty.IndexMappingProperty.SetAnalyzer | src/Config/IndexMappingProperty.php:125-139 | the analyzer round-trips; chainable |
| IndexMappingProperty.IndexMappingProperty.IsEnabled | src/Config/IndexMappingProperty.php:141-144 | always true: the flag starts true and nothing writes it |
| IndexMappingProperty.IndexMappingProperty.Snapshot | src/Config/IndexMappingProperty.php:9-11 | a sub-field in the mapping is enabled and carries no element data |
| SearchProperty.SearchProperty.constructor | src/Properties/SearchProperty.php:28-49 | page 1, size 10000, `select = ['bitrixId']`, an empty sort list and the given query parameters |
| SearchProperty.FromPaging | src/Properties/SearchProperty.php:216-219 | page 1 starts at offset 0 and each page starts `size` after the previous one |
| SearchProperty.PageOfHit | src/Properties/SearchProperty.php:216-219 | the pages tile the hits: hit `h` lies on page `h / size + 1` |
| SearchProperty.SearchProperty.SetQueryParams | src/Properties/SearchProperty.php:54-68 | the query parameters round-trip; chainable |
| SearchProperty.SearchProperty.SetPage | src/Properties/SearchProperty.php:73-87 | the page round-trips; chainable |
| SearchProperty.SearchProperty.SetSize | src/Properties/SearchProperty.php:92-106 | the size round-trips; chainable |
| SearchProperty.SearchProperty.AddSort | src/Properties/SearchProperty.php:116-121 | exactly one entry, `sort => lowercase(direction)`, is appended at the end |
| SearchProperty.RequestSorts | src/Properties/SearchProperty.php:130-157 | one or two entries, each `asc` or `desc` |
| SearchProperty.SearchProperty.AddSortByRequest | src/Properties/SearchProperty.php:130-157 | the table's entries are appended after the existing ones |
| SearchProperty.UnknownSortDefault | src/Properties/SearchProperty.php:152-155 | an unknown request falls back to `sort asc`, then `bitrixId desc` |
| SearchProperty.SearchProperty.ClearSortList | src/Properties/SearchProperty.php:164-169 | the list and the sort array are empty afterwards |
| SearchProperty.SearchProperty.SetSource | src/Properties/SearchProperty.php:175-189 | the select round-trips; chainable |
| SearchProperty.SortArray | src/Properties/SearchProperty.php:206-209 | one single-key array per entry, in insertion order |
| SearchProperty.SearchProperty.Serialize | src/Properties/SearchProperty.php:224-233 | `size` and `select` are the object's own, overriding query parameters of the same name; `page` is the object's own unless a query parameter overrides it |
| SearchProperty.SerializedSizeSelect | src/Properties/SearchProperty.php:224-233 | `array_merge` puts the object's `size` and `select` last, so they win |
| SearchProperty.SerializedPage | src/Properties/SearchProperty.php:224-233 | `page` survives when no query parameter is named `page`; sort entries have integer keys and never override it |
| BitrixConfigGenerator.GetTypeForElastic | src/BitrixConfigGenerator.php:527-539 | float exactly for `N`, whatever the filter flag; otherwise nested exactly when in the smart filter, else keyword |
| BitrixConfigGenerator.BuiltInFields | src/BitrixConfigGenerator.php:53-163 | twelve built-in fields; only the two pictures are disabled |
| BitrixConfigGenerator.DefaultFieldsOf | src/BitrixConfigGenerator.php:48-165 | the constructor's fields when non-empty, otherwise the twelve built-ins |
| BitrixConfigGenerator.DefaultElement | src/BitrixConfigGenerator.php:296-333 | the element gets name, type, title and iblock id; it is disabled exactly when the entry says `enabled === false`; optional keys are copied only when present |
| BitrixConfigGenerator.DefaultElements | src/BitrixConfigGenerator.php:292-336 | one element per default field |
| BitrixConfigGenerator.GetDefaultParams | src/BitrixConfigGenerator.php:292-336 | one element per entry, in order |
| BitrixConfigGenerator.NestedShape | src/BitrixConfigGenerator.php:407-425 | four keyword sub-fields `title`, `value`, `computed`, `keyId`; all but `title` use the `lowercase` normalizer |
| BitrixConfigGenerator.NestedSubFields | src/BitrixConfigGenerator.php:407-425 | the chained setters build exactly that shape |
| BitrixConfigGenerator.NewSubField | src/BitrixConfigGenerator.php:408-424 | one chained-setter sub-field object |
| BitrixConfigGenerator.SetBitrixIblockFieldType | src/BitrixConfigGenerator.php:455-475 | the kind by precedence: `G` category, then a linked iblock (with its id), then a highload directory (with its table), then `L` list, else simple |
| BitrixConfigGenerator.PropertyElementShape | src/BitrixConfigGenerator.php:373-430 | the name is the lower-cased `CODE` and the field is `CODE`; it records the kind and the filter flag; the type follows `getTypeForElastic`; nested elements get the four sub-fields |
| BitrixConfigGenerator.PropertyElement | src/BitrixConfigGenerator.php:379-430 | every property element is a catalogue element |
| BitrixConfigGenerator.PropertyElements | src/BitrixConfigGenerator.php:378-432 | one element per property row |
| BitrixConfigGenerator.CollectPropertyElements | src/BitrixConfigGenerator.php:373-432 | one element per property row, in order |
| BitrixConfigGenerator.OfferElement | src/BitrixConfigGenerator.php:350-371 | one nested `offers` element of kind offer, holding the default fields, `catalog_available` and the offer properties, in that order |
| BitrixConfigGenerator.NewCatalogAvailable | src/BitrixConfigGenerator.php:362-369 | the boolean `catalog_available` element on `STORE_QUANTITY` |
| BitrixConfigGenerator.NewOfferElement | src/BitrixConfigGenerator.php:350-356 | the `offers` element with the collected properties |
| BitrixConfigGenerator.GetIblockProperties | src/BitrixConfigGenerator.php:346-438 | what one iblock adds: its defaults and one element per row, or for the offer iblock the one `offers` element |
| BitrixConfigGenerator.GeneratedMapping | src/BitrixConfigGenerator.php:260-286 | the catalogue's own elements, then exactly one `offers` element last when there is an offer iblock |
| BitrixConfigGenerator.BitrixConfigGenerator.constructor | src/BitrixConfigGenerator.php:249-255 | the four arguments are stored |
| BitrixConfigGenerator.BitrixConfigGenerator.GenerateConfig | src/BitrixConfigGenerator.php:260-278 | a new config with the generated mapping, both iblock ids, the name and the default settings |
| BitrixExport.PrepareValue | src/BitrixExport.php:868-871 | every `/` becomes `_` and nothing else changes, so no `/` is left |
| BitrixExport.PrepareValueOf | src/BitrixExport.php:868-871 | a scalar is replaced as a string; an array keeps its keys |
| BitrixExport.PrepareValueKeepsBars | src/BitrixExport.php:868-871 | the replacement neither creates nor removes `\|` |
| BitrixExport.ComputedKeyRoundTrip | src/BitrixExport.php:878-881 | splitting `prepareComputed(v, t)` on `\|\|`, as the resource does, gives back `prepareValue(v)` and `t` |
| BitrixExport.Elements | src/BitrixExport.php:505-507 | the values of an array in order, and none for a scalar |
| BitrixExport.NonEmptyOf | src/BitrixExport.php:673-676 | exactly the entries that are not PHP-empty |
| BitrixExport.NonNullCount | src/BitrixExport.php:505-507 | the count after dropping nulls is 0 exactly when every entry is null |
| BitrixExport.DataIsEmpty | src/BitrixExport.php:493-508 | PHP-empty data is empty; other scalars are not; a non-empty array is empty exactly when all its entries are null |
| BitrixExport.ModifiedBool | src/BitrixExport.php:658-660 | a boolean field stores true exactly for `'Y'` and `true` |
| BitrixExport.ProjectionGet | src/BitrixExport.php:677-682 | a projected record holds exactly the configured keys the entry sets, with their values |
| BitrixExport.ProjectedRowsSpec | src/BitrixExport.php:672-686 | the non-empty entries are kept, in order, each projected |
| BitrixExport.NestedList | src/BitrixExport.php:670-687 | a nested list keeps each non-empty entry projected on the configured sub-field names it sets, and drops empty entries |
| BitrixExport.FilledGet | src/BitrixExport.php:689-704 | a single nested value gets every configured key and no other |
| BitrixExport.NestedSingle | src/BitrixExport.php:689-704 | each configured key holds the value's own entry; else a missing `computed` holds `prepareComputed(d, d)`, a missing `value` holds `prepareValue(d)`, and any other key holds `d` |
| BitrixExport.ProjectEntry | src/BitrixExport.php:677-682 | the inner loop computes the projection |
| BitrixExport.FillEntry | src/BitrixExport.php:689-702 | the loop computes the filled record |
| BitrixExport.ModifyDataForElastic | src/BitrixExport.php:656-724 | computes `Modified`, whose branches the lemmas above describe |
| BitrixExport.Fold | src/BitrixExport.php:809-828 | the fold records exactly the sections of the rows |
| BitrixExport.SectionChains | src/BitrixExport.php:809-828 | a root's code chain is `[code]` and a child's is its parent's plus its code; the name chain is the parent's plus `/` and the name, or just the name; the record carries title, code, id and `code\|\|name` |
| BitrixExport.FoldStable | src/BitrixExport.php:809-828 | with distinct ids, a recorded section is never overwritten later |
| BitrixExport.FoldRows | src/BitrixExport.php:809-828 | the row loop computes the fold |
| BitrixExport.SectionCache.constructor | src/BitrixExport.php:801-833 | the section caches start empty |
| BitrixExport.SectionCache.FillSections | src/BitrixExport.php:801-833 | stores the iblock's code chains and records, and replaces the name chains |
| BitrixExport.SectionCache.GetParentsSections | src/BitrixExport.php:770-779 | cached chains are returned and nothing changes; otherwise the iblock's code chains and records are stored under it, the name chains replace `sectionsChain`, and the stored chains are returned |
| BitrixExport.AddNewSpec | src/BitrixExport.php:753-757 | what was there stays in place; each new code is added once and nothing else is added |
| BitrixExport.SectionCodesSpec | src/BitrixExport.php:751-759 | every code of every listed section's chain appears exactly once, and no other code |
| BitrixExport.CollectSectionCodes | src/BitrixExport.php:747-761 | the loop computes `SectionCodes` |
| BitrixExport.SectionCache.GetSections | src/BitrixExport.php:743-762 | an element's section codes over the iblock's cached chains; on a miss the cache is filled exactly as by `getParentsSections` |
| BitrixExport.KeptSpec | src/BitrixExport.php:340-355 | exactly the offers with a link and a positive store amount are kept, each marked in stock |
| BitrixExport.RunsSpec | src/BitrixExport.php:358-382 | the batches hold all kept offers in order; each batch is non-empty with one link, and consecutive batches differ in link |
| BitrixExport.ExtendWellRun | src/BitrixExport.php:358-382 | adding one offer keeps the batches well-formed |
| BitrixExport.LoadOfferData | src/BitrixExport.php:303-395 | no batches without an `offers` element; otherwise the runs of the kept offers, flushed on each link change and once at the end |

## Left out

- Bitrix and Elasticsearch I/O are not modelled. This covers the `CIBlock*`, highload, enum and store queries, `CFile`, `translit`, the `ElasticManager` client calls, `Indexer`, `CreateFullIndex` and `IndexConfig::create`/`saveToFile`. Rows and settings come in as parameters. The offer loader emits update batches rather than calling `search`/`updateDiffElement`.
- `$_REQUEST` and the request's `sort` are parameters of `GetElasticParamsFromRequest` and `GetBoolQuery`.
- The ONGR DSL classes are the model's own `Query` and `Agg` datatypes. Exact JSON beyond the names, paths and fields the code sets is not claimed. `SearchBuilder::build` (`Search::toArray` around the bool query) is not modelled. A nested aggregation keeps its sub-aggregations as a sequence, not keyed by name.
- Float casts are not interpreted. `(float)` in the query builder is the opaque scalar `SFloatOf`. In `modifyDataForElastic` it is the parameter `toFloat`. The min/max bounds of a response are floats, which `Php.Value` cannot hold: they arrive as whatever `Value` the response carries.
- IntOf/ToInt: `(int)` is modelled as an optional sign followed by the leading digits. PHP also skips leading whitespace (`" 12"` is 12), reads exponent forms (`"1e3"` is 1000) and saturates at `PHP_INT_MAX`; none of that is modelled, and integers are unbounded.
- PHP 7.4 semantics are assumed. When neither path gives sections, `getElasticParamsFromRequest` reads its never-assigned `$sections` (assigned only at src/UrlParser.php:60-64) as null with a notice. `count($sections)` at line 94 is then 0 with a warning, and `empty($sections)` at line 98 is true; the model treats the sections as an empty list. Under PHP 8 the read still only warns, but `count(null)` throws a TypeError when `category` is empty; that failure is not modelled.
- UrlParser.GetElasticParamsFromRequest: it requires `RequestPathsOk`, string (or absent) path parameters. An array `SECTION_CODE_PATH` or `SMART_FILTER_PATH` reaches `explode`/`convertUrlToElasticParam(string)` and throws a TypeError, which is not modelled.
- CatalogAggregationResource.ParseNestedResult (through `ItemCmp`): a null `VALUE` (a title that is empty or `0`) compares as the empty string. The source's `strtolower(null)` throws under strict types when `uasort` compares that entry; which pairs `uasort` compares is not modelled, so neither is that failure.
- `strnatcasecmp` is an abstract comparator parameter, assumed only to flip sign when its arguments swap. `ucfirst`, `strtoupper` and `strtolower` map ASCII letters only.
- CatalogAggregationResource.SortValues: ordering is stated as each entry in order with the next. Without a transitive comparator that is all `uasort` can promise.
- `getSmartFilterSettings` is an input map keyed by the int property id. Its fold tests the undefined `$iblockSectionProperty`, so every link row resets `SECTIONS`. The generator only copies that array, so the model takes the map as given.
- `getSectionsCode` is not modelled. It lacks a `return` on the fill path, so that path ends in a type error.
- `collectElementSourceForElastic`, `getData`, `getSelectArray`, `loadMainData` and `run` are not modelled. They are Bitrix data access around the modelled value helpers.
- The `try`/`catch` around the offer grouping is not modelled. The modelled steps do not throw.
- The single-product path of `loadOfferData` (`$id > 0`, one store query per offer) is not modelled separately. The store amounts are one map.
- BitrixExport.ComputedKeyRoundTrip: it also needs the value not to end with `|`. Otherwise the split of `v|`, `||`, `t` finds the separator one place early.
- BitrixExport.SectionCache.FillSections: the rows must arrive parents first (`ParentsFirst`). This is what the `left_margin` order of the section query guarantees.
- PCRE `$` also matches before a final newline. The suffix tests model keys without a trailing newline.
- CatalogAggregationResource.ParseNestedResult: it requires `NestedOk`: the aggregated values are an array, and there is a bucket or an existing `VALUES`. A non-array reaches the `array` parameter of `parseNestedResult` and throws; with no buckets and no `VALUES` the source hands null to `uasort`, which fails. Neither failure is modelled.
- CatalogAggregationResource.CatalogAggregationResource.ToArray: it requires every row to be `Decodable`. A non-array range result reaches `array_pop` and throws, and a scalar `VALUES` follows PHP's scalar-as-array rules; neither is modelled.
- AggregationBuilder.AggregationBuilder.Build: it requires an offer iblock id, because `getOfferIBlockId(): int` fails on an unset id. CatalogAggregationResource.CatalogAggregationResource.ToArray requires the same whenever there is a row to decode.
- BitrixConfigGenerator.BitrixConfigGenerator.GenerateConfig: it requires an offer iblock id, because `setOfferIBlockId(int)` rejects null under strict types.
- BitrixConfigGenerator.SetBitrixIblockFieldType: it is stated for a fresh element, with no highload table or link yet, as `getIblockProperties` calls it.
- The element setters are modelled where the generator and readers use them. The mapping collection stores value snapshots taken when an element is added. No element is changed after it is added.
