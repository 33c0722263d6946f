# Ignite UI for Angular: icon service and pivot dimension strategies

This project models two parts of the Ignite UI for Angular library in Dafny and proves properties of the model.

**The icon service** (`IconService`, `icon_service.dfy`) is the registry that icon components query. It holds four pieces of state:

- a table of icon families: family name to class name, icon type and optional name prefix;
- a table of icon references per family;
- a cache of parsed svg icons, keyed by family and then by icon name;
- the stream of "icon loaded" notifications, kept as an append-only log of events.

The service is a class whose methods update these tables in place. The meaning of each lookup is a pure function of the table values: `ClassNameOf`, `TypeOf`, `ResolveRef`, `IsCachedIn`, `CachedSvgIn` and `CacheStep`. The lookup methods are proved equal to those functions. Lemmas about the functions state what the service promises:

- a stored reference round-trips through `getIconRef`;
- a name prefix is applied at most once;
- setting one entry leaves every other entry alone;
- after `addSvgIconFromText` on a named family, the icon is found in the cache.

The class invariant says that every stored reference and every cache key has been announced on the event log.

**The pivot strategies** (`PivotStrategy`, `pivot_strategy.dfy`) build the data shown by the pivot grid:

- the no-op strategy returns its input unchanged;
- the row strategy seeds a row hierarchy from the first row dimension, then passes each later dimension to `processGroups`, in order;
- the column strategy walks every record's child groups depth first and aggregates every record over its leaf records. The records are found by flattening nested records arrays;
- the filtering strategy looks a field up through the first enabled dimension with that member name.

The pivot utility helpers these strategies call live elsewhere in the library. They are uninterpreted functions here, fields of a `PivotUtil` value. `applyAggregations` writes aggregate values into a record; the model records each call to it instead, as an `AggregationCall` in a trace. The column strategy is proved to make exactly one call per record, in post-order: the whole subtree under `children` first, then the record itself. Each call's hierarchy is built over the record's leaves.

One behaviour of the source is kept as written. `cacheSvgIcon` stores an icon under the family name, or under the default family's name when the family is empty. `isSvgIconCached` and `getSvgIcon` look it up under `familyClassName(family)`. `addSvgIconFromText` defaults its family to the empty string, so an icon added that way is written under the default family's name (`material` until the `defaultFamily` setter changes it) but looked up under the empty key. The lemma `IconService.EmptyFamilyStaysUncached` states that such an icon is never reported as cached. `IconService.CacheKeyAgreement` gives the exact condition under which the two keys agree.

## Model

| member | source | states |
|---|---|---|
| IconService.IconService.constructor | projects/igniteui-angular/src/lib/icon/icon.service.ts:69-91 | the default family `material` → `material-icons`/liga is registered, all other tables and the event log are empty, and the invariant holds |
| IconService.MaterialRegistered | projects/igniteui-angular/src/lib/icon/icon.service.ts:69-72 | the freshly registered default family resolves to class `material-icons` and type liga |
| IconService.IconService.SetDefaultFamily | projects/igniteui-angular/src/lib/icon/icon.service.ts:109-112 | the new default family is stored and registered in the family table; nothing else changes |
| IconService.IconService.RegisterFamilyAlias | projects/igniteui-angular/src/lib/icon/icon.service.ts:121-128 | the alias is registered with the class name defaulting to the alias and the type defaulting to font |
| IconService.IconService.FamilyClassName | projects/igniteui-angular/src/lib/icon/icon.service.ts:136-138 | the registered class name; the alias itself when none is registered or the class name is empty |
| IconService.UnregisteredClassName | projects/igniteui-angular/src/lib/icon/icon.service.ts:136-138 | an unregistered family, or one with an empty class name, resolves to its own name |
| IconService.IconService.FamilyType | projects/igniteui-angular/src/lib/icon/icon.service.ts:141-143 | the registered icon type; missing for an unregistered family |
| IconService.IconService.SetFamily | projects/igniteui-angular/src/lib/icon/icon.service.ts:152-154 | the entry for the name is replaced and no other entry changes |
| IconService.SetFamilyIsolated | projects/igniteui-angular/src/lib/icon/icon.service.ts:152-154 | after `setFamily(name, meta)`, `name` resolves to meta's class name (or to itself when that is empty), type and prefix; every other alias resolves as before |
| IconService.IconService.AddIconRef | projects/igniteui-angular/src/lib/icon/icon.service.ts:163-169 | a stored reference is never overwritten and no event is emitted for it; otherwise the reference is stored as `setIconRef` would store it and announced once; the invariant is kept |
| IconService.IconService.SetIconRef | projects/igniteui-angular/src/lib/icon/icon.service.ts:177-189 | the reference is stored, with its type taken from `icon.family` when it has none; the family's table is created on demand; one `{name, family}` event is appended; the invariant is kept |
| IconService.RefsWithIsolated | projects/igniteui-angular/src/lib/icon/icon.service.ts:177-189 | storing a reference replaces exactly the entry for that family and name |
| IconService.IconService.GetIconRef | projects/igniteui-angular/src/lib/icon/icon.service.ts:197-219 | the stored reference, or the requested name and family when none is stored; the type falls back to the family type; the class name comes from the family; the name is prefixed when both name and prefix are non-empty and the name does not already contain the prefix |
| IconService.ResolveMissingRef | projects/igniteui-angular/src/lib/icon/icon.service.ts:197-219 | for a name with no stored reference, the lookup is built from the requested name and family alone; without a prefix the name is returned unchanged |
| IconService.ResolveAfterSetRef | projects/igniteui-angular/src/lib/icon/icon.service.ts:177-219 | round trip: after `setIconRef(name, family, icon)`, `getIconRef(name, family)` returns icon's family with its class name, icon's type or that family's type, and icon's name, prefixed |
| IconService.IncludesAt | projects/igniteui-angular/src/lib/icon/icon.service.ts:210 | the `includes` test holds exactly when the prefix occurs at some position of the name |
| IconService.WithPrefixOnce | projects/igniteui-angular/src/lib/icon/icon.service.ts:207-211 | prefixing is idempotent: resolving an already resolved name with the same prefix changes nothing |
| IconService.WithPrefixContains | projects/igniteui-angular/src/lib/icon/icon.service.ts:207-211 | a non-empty name resolved with a non-empty prefix always contains the prefix; it is kept when it already did, and prefixed otherwise |
| IconService.PrefixIncluded | projects/igniteui-angular/src/lib/icon/icon.service.ts:210 | a prefixed name contains its prefix |
| IconService.IconService.AddSvgIcon | projects/igniteui-angular/src/lib/icon/icon.service.ts:227-263 | all three error cases (missing name or url, untrusted url, unsanitized url) and their order; success exactly when none applies; the fetch is issued, and the family registered as an svg family, exactly when the icon is not cached under the resolved family |
| IconService.IconService.AddSvgIconFromText | projects/igniteui-angular/src/lib/icon/icon.service.ts:272-290 | throws exactly on a missing name or text; a cached icon leaves every table unchanged; otherwise the family is registered as an svg family and the icon is cached as `cacheSvgIcon` caches it; the invariant is kept |
| IconService.CachedAfterAddFromText | projects/igniteui-angular/src/lib/icon/icon.service.ts:272-319 | after `addSvgIconFromText` on a non-empty family with parseable svg, the icon is reported cached and `getSvgIcon` returns it |
| IconService.EmptyFamilyStaysUncached | projects/igniteui-angular/src/lib/icon/icon.service.ts:272-319 | on the empty family the icon is written under the default family's name and so is never reported cached under the empty family |
| IconService.IconService.IsSvgIconCached | projects/igniteui-angular/src/lib/icon/icon.service.ts:298-308 | whether the cache holds the name under the family's class name |
| IconService.IconService.GetSvgIcon | projects/igniteui-angular/src/lib/icon/icon.service.ts:316-319 | the svg cached for the name under the family's class name, or none |
| IconService.CachedIffFound | projects/igniteui-angular/src/lib/icon/icon.service.ts:298-319 | `isSvgIconCached` holds exactly when `getSvgIcon` returns an icon |
| IconService.IconService.CacheSvgIcon | projects/igniteui-angular/src/lib/icon/icon.service.ts:332-372 | outside a browser, or without a name or a value, nothing changes; otherwise the key is the family or the default family's name; its table is created and announced with the svg text the first time it is used; the parsed svg, when there is one, is stored under the name; the invariant is kept |
| IconService.CacheStepIsolated | projects/igniteui-angular/src/lib/icon/icon.service.ts:344-370 | caching under one key creates that key and leaves every other key's table unchanged |
| IconService.CacheKeyAgreement | projects/igniteui-angular/src/lib/icon/icon.service.ts:298-338 | for a non-empty family, the key written by `cacheSvgIcon` equals the key read by the lookups exactly when the family's class name is unset, empty or the family name |
| PivotStrategy.StrategyInstances.NoopInstance | projects/igniteui-angular/src/lib/data-operations/pivot-strategy.ts:9-13 | the first call creates the instance and every later call returns that same object |
| PivotStrategy.StrategyInstances.RowInstance | projects/igniteui-angular/src/lib/data-operations/pivot-strategy.ts:22-26 | the same, for the row strategy |
| PivotStrategy.StrategyInstances.ColumnInstance | projects/igniteui-angular/src/lib/data-operations/pivot-strategy.ts:67-71 | the same, for the column strategy |
| PivotStrategy.NoopPivotDimensionsStrategy.Process | projects/igniteui-angular/src/lib/data-operations/pivot-strategy.ts:15-17 | the collection is returned unchanged |
| PivotStrategy.PivotRowDimensionsStrategy.Process | projects/igniteui-angular/src/lib/data-operations/pivot-strategy.ts:28-63 | with no row dimension, one hierarchy pass over the empty dimension; otherwise the first leveled dimension seeds the data and each later one is applied by `processGroups`, in order |
| PivotStrategy.ExtendGroupsAppend | projects/igniteui-angular/src/lib/data-operations/pivot-strategy.ts:49-61 | applying the later dimensions in two runs is the same as applying them in one |
| PivotStrategy.ExtendGroupsFirst | projects/igniteui-angular/src/lib/data-operations/pivot-strategy.ts:49-61 | the second row dimension is applied first, directly to the seeded data |
| PivotStrategy.RowSingleDimension | projects/igniteui-angular/src/lib/data-operations/pivot-strategy.ts:49-62 | with one row dimension the result is that dimension's hierarchy and `processGroups` is never applied |
| PivotStrategy.PivotColumnDimensionsStrategy.Process | projects/igniteui-angular/src/lib/data-operations/pivot-strategy.ts:73-81 | the records come back as they went in, and the aggregation calls are those of the post-order of the collection |
| PivotStrategy.PivotColumnDimensionsStrategy.ProcessHierarchy | projects/igniteui-angular/src/lib/data-operations/pivot-strategy.ts:83-91 | the same records in the same order; the subtrees are aggregated one after the other |
| PivotStrategy.PivotColumnDimensionsStrategy.GroupColumns | projects/igniteui-angular/src/lib/data-operations/pivot-strategy.ts:93-106 | every record below `rec` is aggregated, group by group and child by child, before `rec` itself; each call's hierarchy is built over the record's leaves |
| PivotStrategy.PivotColumnDimensionsStrategy.GroupChildRecords | projects/igniteui-angular/src/lib/data-operations/pivot-strategy.ts:96-102 | the child records of one group are aggregated subtree by subtree, in array order |
| PivotStrategy.PostOrderMembership | projects/igniteui-angular/src/lib/data-operations/pivot-strategy.ts:93-106 | a record is aggregated by `groupColumns(rec)` exactly when it is `rec` or is reachable from `rec` through `children` |
| PivotStrategy.GroupsMembership | projects/igniteui-angular/src/lib/data-operations/pivot-strategy.ts:95-102 | the records aggregated for a sequence of child groups are exactly those reachable from one of their records |
| PivotStrategy.RecsMembership | projects/igniteui-angular/src/lib/data-operations/pivot-strategy.ts:85-89 | the records aggregated for a sequence of records are exactly those records and the ones reachable from them |
| PivotStrategy.ChildrenAggregatedFirst | projects/igniteui-angular/src/lib/data-operations/pivot-strategy.ts:93-106 | `rec` is aggregated last, and before it exactly the records reachable from it |
| PivotStrategy.SubtreeInPostOrder | projects/igniteui-angular/src/lib/data-operations/pivot-strategy.ts:96-100 | everything aggregated for a child's subtree is aggregated for its parent |
| PivotStrategy.SubtreeInCollection | projects/igniteui-angular/src/lib/data-operations/pivot-strategy.ts:85-89 | everything aggregated for one record of a collection is aggregated for the collection |
| PivotStrategy.TreeAggregatableIff | projects/igniteui-angular/src/lib/data-operations/pivot-strategy.ts:93-116 | the precondition of `groupColumns` (every record in the subtree has a records array) holds exactly when every record it aggregates has one |
| PivotStrategy.CallsForAppend | projects/igniteui-angular/src/lib/data-operations/pivot-strategy.ts:83-106 | aggregating two record sequences one after the other makes the concatenation of their calls |
| PivotStrategy.CallsForAre | projects/igniteui-angular/src/lib/data-operations/pivot-strategy.ts:105-111 | one call per aggregated record, in the same order, each for that record |
| PivotStrategy.CallsForLength | projects/igniteui-angular/src/lib/data-operations/pivot-strategy.ts:105-111 | exactly one `applyAggregations` call per aggregated record, for every sequence of records, including the empty one |
| PivotStrategy.PivotColumnDimensionsStrategy.ApplyAggregates | projects/igniteui-angular/src/lib/data-operations/pivot-strategy.ts:108-112 | one call of `applyAggregations` on `rec` with the values and the column hierarchy of `rec`'s leaves |
| PivotStrategy.PivotColumnDimensionsStrategy.GetLeafs | projects/igniteui-angular/src/lib/data-operations/pivot-strategy.ts:114-124 | the records, each record with a records array replaced, recursively, by its leaves, in depth-first order |
| PivotStrategy.LeavesAppend | projects/igniteui-angular/src/lib/data-operations/pivot-strategy.ts:114-124 | leaf extraction distributes over concatenation, so the order of the records is kept |
| PivotStrategy.LeavesAreFlat | projects/igniteui-angular/src/lib/data-operations/pivot-strategy.ts:114-124 | no leaf has a records array |
| PivotStrategy.FlatLeaves | projects/igniteui-angular/src/lib/data-operations/pivot-strategy.ts:114-124 | a sequence of plain data rows is its own leaf set |
| PivotStrategy.LeavesIdempotent | projects/igniteui-angular/src/lib/data-operations/pivot-strategy.ts:114-124 | extracting the leaves twice gives the same leaves |
| PivotStrategy.EmptyGroupContributesNothing | projects/igniteui-angular/src/lib/data-operations/pivot-strategy.ts:114-124 | a record with an empty records array contributes no leaf |
| PivotStrategy.LeavesMembership | projects/igniteui-angular/src/lib/data-operations/pivot-strategy.ts:114-124 | a record is a leaf of a sequence exactly when it is reached from one of its records through records arrays and has none itself |
| PivotStrategy.PivotColumnDimensionsStrategy.IsLeaf | projects/igniteui-angular/src/lib/data-operations/pivot-strategy.ts:126-128 | a record without a records array is a leaf; a record with one is a leaf exactly when its records array is its own leaf set |
| PivotStrategy.EnabledDimensions | projects/igniteui-angular/src/lib/data-operations/pivot-strategy.ts:146 | a dimension is kept exactly when it is present and enabled; nothing is added |
| PivotStrategy.EnabledDimensionsAppend | projects/igniteui-angular/src/lib/data-operations/pivot-strategy.ts:146 | the filter keeps the order of the dimensions |
| PivotStrategy.FindByMember | projects/igniteui-angular/src/lib/data-operations/pivot-strategy.ts:147 | none exactly when no dimension has the member name; otherwise the first one that has it |
| PivotStrategy.DimensionValuesFilteringStrategy.GetFieldValue | projects/igniteui-angular/src/lib/data-operations/pivot-strategy.ts:142-149 | the value extracted through the first flattened enabled dimension with the field's member name, or through no dimension when none has it |

## Left out

- HTTP: `fetchSvg` is not modelled. `AddSvgIcon` reports whether the request is issued; its response reaches `CacheSvgIcon` later, with the same name, family and `stripMeta`.
- DOM sanitizer: the outcomes of `bypassSecurityTrustResourceUrl` and `sanitize` are the parameters `urlTrusted` and `urlSanitized` of `AddSvgIcon`.
- SVG processing: parsing the text, `querySelector("svg")`, the `fit` and `preserveAspectRatio` attributes, removal of `title` and `desc`, and `bypassSecurityTrustHtml` form one uninterpreted function. It is the service's `renderSvg`, which returns no svg when the text holds none.
- Platform: `PlatformUtil.isBrowser` is a constant of the service.
- Observables: the `iconLoaded` subject is the append-only log `loaded`. Subscribers and rxjs scheduling are not modelled.
- RegisterFamilyAlias: the fluent `this` return is not modelled.
- Icon references: the model keeps an icon reference's name and family as plain strings. A reference with a missing `family` or `name` field does not appear.
- Reference sharing: `setIconRef` updates the inner map of the reference table in place. The model writes a new map value back, so sharing of that inner map is not modelled.
- Pivot helpers: `assignLevels`, `getFieldsHierarchy`, `processHierarchy`, `processGroups`, `flatten` and `extractValueFromDimension` are uninterpreted. Their bodies are in the pivot utility, which is not part of this model.
- In-place updates: `assignLevels` and `processGroups` update their arguments in place. They are modelled by the value they leave behind. `applyAggregations` is modelled only as the trace of its calls.
- Record aliasing: records and dimensions are values. A record shared between two places is not modelled.
- cloneArray: the deep copy `cloneArray(rows, true)` is the identity on values. The caller's `rows` is unchanged either way.
- Dead variables: `prevRowDims`, `prevDim` and `prevDimTopRecords` in the row strategy are written but never read, so they are left out.
- Unused arguments: the row strategy's `values` argument is not read. The filtering strategy's `fields` is stored and not read. The `isDate`, `isTime` and `pivotConfiguration` inputs of `getFieldValue` are not read.
- GetFieldValue: it takes the grid's `allDimensions` directly. A missing grid, which makes the source throw, is not modelled.
- Records key: the model assumes `pivotKeys.records` is `"records"`. `applyAggregates` reads the fixed property `rec.records` (projects/igniteui-angular/src/lib/data-operations/pivot-strategy.ts:109), while `getLeafs` and `isLeaf` read the configured key `rec[pivotKeys.records]` (pivot-strategy.ts:117-118, :127). Both are the one field `Rec.records` here, so `GetLeafs` and `IsLeaf` take no keys. With another records key the source reads two different arrays, and throws at :109 on a group that has none under `records`; the model does not capture that. The other configured keys are not used by these strategies.
- Children: a missing `children` map, or a child entry without an array, behaves as an empty one, as the source skips both.
- PivotColumnDimensionsStrategy.GroupColumns: requires `TreeAggregatable`, because the source throws a TypeError when a record it aggregates has no records array. `TreeAggregatableIff` states the requirement in terms of the aggregated records.
- Default parameters: the default `pivotKeys` and the default `family` and `stripMeta` arguments are explicit arguments or `Option` values. The missing-family default of `addSvgIcon` is the default family's name.
