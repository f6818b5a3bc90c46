# SeedStack Seed: configuration glue and plugin rules, modelled in Dafny

This project models the rule-bearing core of the SeedStack Seed framework:

- **Legacy bridge.** The provider turns the flat, multi-valued legacy configuration into a configuration tree. Keys lose their `org.seedstack.seed.` and then their `org.seedstack.` prefix. Values are joined with commas. A fixed conversion then moves the `jpa.unit` subtree to `jpa.units`.
- **`json` lookup.** It parses its `property|path` argument and normalises the JSONPath.
- **Members injector.** It binds configuration values, or mapped defaults, onto `@Configuration` fields.
- **`config` tool.** It arranges the `@Config` classes as a tree and resolves a command-line path to a subtree or to one property.
- **Application plugin.** It derives the application identity and checks the storage directory.
- **Seed runtime.** It registers the default configuration layer, checks plugin versions, and builds its diagnostic map and typed context access.
- **Security plugin.** It registers security scopes.
- **REST plugin.** It keeps the provider and resource bookkeeping.
- **Two configuration beans.** `SecurityConfig` and `WebConfig`, with their defaults and chained setters.

Code that changes state in the source is modelled in Dafny in the same way:

- Each mutable object is a `class` whose methods have `modifies` clauses.
- Each loop is a `while` loop. It is proved against a specification function defined by recursion (`Load`, `PostProcessed`, `Inject`, `RegisterAll`, `BuildAll`, `AttachPoint`), or as a set comprehension (`InconsistentNames`).
- The lemmas state what the source promises about those functions.

Code that only computes a value is modelled as functions with lemmas.

Two modules are shared by all the others:

- `Strings`: Java's join, and Java's `split` with trailing empty parts dropped.
- `Tree`: the configuration tree with `get`, `set` and `remove` on paths.

`JavaTypes` models Java's `int` and `long`, including the wrap-around of a `long` product.

Three behaviours of the code that the model keeps as written:

- **Legacy conversion.** The conversion is not a rename. The code reads the node at `jpa.unit`, removes both paths, and stores that node at `jpa.units`. A flat `org.seedstack.jpa.units=X` alone therefore leaves neither path in the model, where storing a missing node leaves the path absent (`UnitsAloneIsDropped`). Unit definitions under `jpa.unit` end up under `jpa.units` (`UnitsMovedUnderList`).
- **No rollback.** A failing field does not undo the fields injected before it (`StopsAtFirstFailure`).
- **Mandatory-key error.** The mandatory-key error is raised inside the `try` and leaves as `UNABLE_TO_INJECT_CONFIGURATION_VALUE`, with the missing key as its cause (`MandatoryMissing`).

## Model

| member | source | states |
|---|---|---|
| Strings.SplitAll | core/src/main/java/org/seedstack/seed/core/internal/config/legacy/JsonLookup.java:44 | cutting at every separator gives at least one part and no part contains the separator |
| Strings.DropTrailingEmpty | core/src/main/java/org/seedstack/seed/core/internal/config/legacy/JsonLookup.java:44 | the result is a prefix of the parts, does not end in an empty part, and only empty parts were dropped |
| Strings.JoinSplit | core/src/main/java/org/seedstack/seed/core/internal/configuration/tool/ConfigurationTool.java:54 | joining the parts of a split gives back the string |
| Strings.SplitPrefixFree | core/src/main/java/org/seedstack/seed/core/internal/config/legacy/JsonLookup.java:44 | a separator-free head merges into the first part of the rest's split |
| Strings.SplitJoin | core/src/main/java/org/seedstack/seed/core/internal/configuration/tool/ConfigurationTool.java:54 | splitting the join of separator-free parts gives back the parts |
| Strings.JoinAppend | core/src/main/java/org/seedstack/seed/core/internal/configuration/tool/ConfigurationTool.java:54 | joining a concatenation is joining both halves with one separator between |
| Strings.JoinFlatten | core/src/main/java/org/seedstack/seed/core/internal/configuration/tool/ConfigurationTool.java:54 | an argument that is itself a join can be replaced by its parts without changing the join |
| Strings.JoinEmpties | core/src/main/java/org/seedstack/seed/core/internal/config/legacy/JsonLookup.java:44 | trailing empty parts add trailing separators to the join |
| Strings.DropEmpties | core/src/main/java/org/seedstack/seed/core/internal/config/legacy/JsonLookup.java:44 | trailing empty parts after a non-empty last part are exactly what the split drops |
| Strings.JavaSplitOfJoin | core/src/main/java/org/seedstack/seed/core/internal/config/legacy/JsonLookup.java:44 | Java's split undoes a join of separator-free parts, whatever number of separators trail |
| Strings.JavaSplitShape | core/src/main/java/org/seedstack/seed/core/internal/config/legacy/JsonLookup.java:44 | the parts of a Java split are separator-free, the last non-empty when there are several, and the input is their join plus trailing separators |
| Tree.GetAppend | core/src/main/java/org/seedstack/seed/core/internal/config/legacy/LegacyConfigurationProvider.java:77 | reading a longer path reads the rest below the node at the prefix |
| Tree.GetSetBelow | core/src/main/java/org/seedstack/seed/core/internal/config/legacy/LegacyConfigurationProvider.java:80 | after storing a node at a path, everything below the path is read from that node |
| Tree.GetSet | core/src/main/java/org/seedstack/seed/core/internal/config/legacy/LegacyConfigurationProvider.java:80 | the stored node is found at its path |
| Tree.GetSetOther | core/src/main/java/org/seedstack/seed/core/internal/config/legacy/LegacyConfigurationProvider.java:80 | storing at a path leaves every independent path as it was |
| Tree.GetRemoveBelow | core/src/main/java/org/seedstack/seed/core/internal/config/legacy/LegacyConfigurationProvider.java:78-79 | after a removal nothing at or below the path is found |
| Tree.NotFoundFromPrefix | core/src/main/java/org/seedstack/seed/core/internal/config/legacy/LegacyConfigurationProvider.java:77 | a path whose head is missing is missing |
| Tree.GetRemove | core/src/main/java/org/seedstack/seed/core/internal/config/legacy/LegacyConfigurationProvider.java:78-79 | the removed path is absent |
| Tree.GetRemoveOther | core/src/main/java/org/seedstack/seed/core/internal/config/legacy/LegacyConfigurationProvider.java:78-79 | removal leaves every independent path as it was |
| Tree.MutableMapNode.constructor | core/src/main/java/org/seedstack/seed/core/internal/config/legacy/LegacyConfigurationProvider.java:41 | a new tree is an empty map node |
| Tree.MutableMapNode.SetAt | core/src/main/java/org/seedstack/seed/core/internal/config/legacy/LegacyConfigurationProvider.java:42 | the tree becomes the old tree with the node stored at the path |
| Tree.MutableMapNode.RemoveAt | core/src/main/java/org/seedstack/seed/core/internal/config/legacy/LegacyConfigurationProvider.java:78-79 | the tree becomes the old tree without the entry at the path |
| LegacyConfig.StripAllSuffix | core/src/main/java/org/seedstack/seed/core/internal/config/legacy/LegacyConfigurationProvider.java:63-70 | stripping only removes a head: the result is a suffix of the key |
| LegacyConfig.GetValue | core/src/main/java/org/seedstack/seed/core/internal/config/legacy/LegacyConfigurationProvider.java:72-74 | the values `getStringArray` returns (after interpolation) become one comma-joined value node, and a single value is kept unchanged |
| LegacyConfig.GetValueRoundTrip | core/src/main/java/org/seedstack/seed/core/internal/config/legacy/LegacyConfigurationProvider.java:72-74 | comma-free values are recovered by splitting the node's value at commas |
| LegacyConfig.LegacyConfigurationProvider.constructor | core/src/main/java/org/seedstack/seed/core/internal/config/legacy/LegacyConfigurationProvider.java:32-37 | the prefix list is `org.seedstack.seed.` then `org.seedstack.`, and the conversion table has the single entry `org.seedstack.jpa.units` to `org.seedstack.jpa.unit` |
| LegacyConfig.LegacyConfigurationProvider.StripPrefixes | core/src/main/java/org/seedstack/seed/core/internal/config/legacy/LegacyConfigurationProvider.java:63-70 | the loop over the prefixes computes the key with each prefix tried once, in order |
| LegacyConfig.LegacyConfigurationProvider.Provide | core/src/main/java/org/seedstack/seed/core/internal/config/legacy/LegacyConfigurationProvider.java:40-45 | a fresh tree holding every key's joined value at its stripped path, with the conversion pass run afterwards |
| LegacyConfig.LegacyConfigurationProvider.PostProcess | core/src/main/java/org/seedstack/seed/core/internal/config/legacy/LegacyConfigurationProvider.java:47-61 | only keys in the conversion table trigger a conversion, on their stripped key and target |
| LegacyConfig.LegacyConfigurationProvider.Convert | core/src/main/java/org/seedstack/seed/core/internal/config/legacy/LegacyConfigurationProvider.java:76-81 | the tree becomes the item node moved to the list path with both old paths cleared |
| LegacyConfig.LegacyConfigurationProvider.ProvideTwice | core/src/main/java/org/seedstack/seed/core/internal/config/legacy/LegacyConfigurationProvider.java:28-30 | two calls give two distinct fresh trees with equal contents |
| LegacyConfig.StripUnprefixed | core/src/main/java/org/seedstack/seed/core/internal/config/legacy/LegacyConfigurationProvider.java:63-70 | a key without `org.seedstack.` is unchanged |
| LegacyConfig.StripAllTables | core/src/main/java/org/seedstack/seed/core/internal/config/legacy/LegacyConfigurationProvider.java:34-35 | stripping with the constructor's list strips `org.seedstack.seed.` and then `org.seedstack.` |
| LegacyConfig.StripSeedKey | core/src/main/java/org/seedstack/seed/core/internal/config/legacy/LegacyConfigurationProvider.java:63-70 | after `org.seedstack.seed.` is removed, `org.seedstack.` is still tried on the rest |
| LegacyConfig.StripSeedstackKey | core/src/main/java/org/seedstack/seed/core/internal/config/legacy/LegacyConfigurationProvider.java:63-70 | a key under `org.seedstack.` but not under `org.seedstack.seed.` loses exactly that prefix |
| LegacyConfig.JpaPaths | core/src/main/java/org/seedstack/seed/core/internal/config/legacy/LegacyConfigurationProvider.java:36 | the table's keys strip to the paths `jpa.units` and `jpa.unit` |
| LegacyConfig.LoadKeepsEntry | core/src/main/java/org/seedstack/seed/core/internal/config/legacy/LegacyConfigurationProvider.java:42 | before conversion, each key's value is found at its stripped path unless a later key's path lies on it |
| LegacyConfig.LoadUntouched | core/src/main/java/org/seedstack/seed/core/internal/config/legacy/LegacyConfigurationProvider.java:42 | a path independent of every key's path is absent from the loaded tree |
| LegacyConfig.ConvertedMoves | core/src/main/java/org/seedstack/seed/core/internal/config/legacy/LegacyConfigurationProvider.java:76-81 | the list path then holds what the item path held, the item path is empty, and every path independent of both is unchanged |
| LegacyConfig.PostProcessedNoCandidate | core/src/main/java/org/seedstack/seed/core/internal/config/legacy/LegacyConfigurationProvider.java:47-57 | without a table key among the keys the pass changes nothing |
| LegacyConfig.PostProcessedOneCandidate | core/src/main/java/org/seedstack/seed/core/internal/config/legacy/LegacyConfigurationProvider.java:47-61 | with the table key present once, the pass is exactly one conversion |
| LegacyConfig.ProvidedByConstructorTables | core/src/main/java/org/seedstack/seed/core/internal/config/legacy/LegacyConfigurationProvider.java:36-57 | the result is the loaded tree, converted if and only if the raw key `org.seedstack.jpa.units` is present |
| LegacyConfig.UnitsAloneIsDropped | core/src/main/java/org/seedstack/seed/core/internal/config/legacy/LegacyConfigurationProvider.java:76-81 | a lone `jpa.units` value disappears and `jpa.unit` stays absent |
| LegacyConfig.StripPrefixAppend | core/src/main/java/org/seedstack/seed/core/internal/config/legacy/LegacyConfigurationProvider.java:65-66 | stripping a prefix no longer than the key commutes with appending to the key |
| LegacyConfig.KeyPathChild | core/src/main/java/org/seedstack/seed/core/internal/config/legacy/LegacyConfigurationProvider.java:42 | a dotted child key's path is the parent's path plus the segment |
| LegacyConfig.StripChild | core/src/main/java/org/seedstack/seed/core/internal/config/legacy/LegacyConfigurationProvider.java:63-70 | stripping a key not under `org.seedstack.seed.` commutes with appending a tail |
| LegacyConfig.ChildKeyPath | core/src/main/java/org/seedstack/seed/core/internal/config/legacy/LegacyConfigurationProvider.java:63-70 | a dotted child of a key not under `org.seedstack.seed.` lands one segment below the key's path |
| LegacyConfig.UnitKeyNotSeed | core/src/main/java/org/seedstack/seed/core/internal/config/legacy/LegacyConfigurationProvider.java:27-36 | `org.seedstack.jpa.unit` is not under `org.seedstack.seed.` |
| LegacyConfig.UnitKeyPath | core/src/main/java/org/seedstack/seed/core/internal/config/legacy/LegacyConfigurationProvider.java:63-70 | `org.seedstack.jpa.unit.<u>` lands at the path `jpa.unit.<u>` |
| LegacyConfig.UnitsMovedUnderList | core/src/main/java/org/seedstack/seed/core/internal/config/legacy/LegacyConfigurationProvider.java:40-81 | unit definitions under `jpa.unit` end up under `jpa.units`, and `jpa.unit` is gone |
| JsonLookupModel.ParseArgument | core/src/main/java/org/seedstack/seed/core/internal/config/legacy/JsonLookup.java:27-47 | a refused argument gives the syntax message; an accepted one gives two separator-free parts with a non-empty path |
| JsonLookupModel.NormalizePath | core/src/main/java/org/seedstack/seed/core/internal/config/legacy/JsonLookup.java:49-52 | the result starts with `$` and ends with the path, and equals the path if and only if the path starts with `$` |
| JsonLookupModel.NormalizeIdempotent | core/src/main/java/org/seedstack/seed/core/internal/config/legacy/JsonLookup.java:50-52 | normalising twice is normalising once |
| JsonLookupModel.Lookup | core/src/main/java/org/seedstack/seed/core/internal/config/legacy/JsonLookup.java:43-55 | a syntax error for a refused argument; otherwise the reader's result on the interpolated and substituted property at the substituted and normalised path |
| JsonLookupModel.ParseArgumentAccepts | core/src/main/java/org/seedstack/seed/core/internal/config/legacy/JsonLookup.java:44-47 | a separator-free property, the separator, a non-empty separator-free path and any number of trailing separators is accepted as those two parts |
| JsonLookupModel.ParseArgumentShape | core/src/main/java/org/seedstack/seed/core/internal/config/legacy/JsonLookup.java:44-47 | conversely, every accepted argument has that shape |
| JsonLookupModel.NoSeparatorRefused | core/src/main/java/org/seedstack/seed/core/internal/config/legacy/JsonLookup.java:44-47 | an argument without the separator is refused |
| JsonLookupModel.EmptyPathRefused | core/src/main/java/org/seedstack/seed/core/internal/config/legacy/JsonLookup.java:44-47 | a property followed by the separator alone is refused, because the split drops the trailing empty part |
| JsonLookupModel.ThreePartsRefused | core/src/main/java/org/seedstack/seed/core/internal/config/legacy/JsonLookup.java:44-47 | three parts with a non-empty last part are refused |
| JsonLookupModel.EmptyPropertyAccepted | core/src/main/java/org/seedstack/seed/core/internal/config/legacy/JsonLookup.java:44-47 | the separator followed by a path is accepted with the empty property |
| JsonLookupModel.LookupPath | core/src/main/java/org/seedstack/seed/core/internal/config/legacy/JsonLookup.java:49-54 | the reader gets the substituted path unchanged when it starts with `$`, and below `$.` otherwise |
| MembersInjector.Key | core/src/main/java/org/seedstack/seed/core/internal/configuration/ConfigurationMembersInjector.java:54-61 | the dotted key splits back into the path's segments |
| MembersInjector.MapValue | core/src/main/java/org/seedstack/seed/core/internal/configuration/ConfigurationMembersInjector.java:66-74 | several defaults give an array of value nodes, one default gives a value node, none gives nothing |
| MembersInjector.MapValueRoundTrip | core/src/main/java/org/seedstack/seed/core/internal/configuration/ConfigurationMembersInjector.java:66-74 | the node built from the defaults carries exactly the defaults |
| MembersInjector.Wrap | core/src/main/java/org/seedstack/seed/core/internal/configuration/ConfigurationMembersInjector.java:57-62 | the wrapped error names the declaring class, the field name and the dotted key, and keeps the cause |
| MembersInjector.FieldStep | core/src/main/java/org/seedstack/seed/core/internal/configuration/ConfigurationMembersInjector.java:41-62 | a lookup failure is not wrapped, other failures are, and a field is left alone only when there is no value, no default and it is optional |
| MembersInjector.InjectFailedStays | core/src/main/java/org/seedstack/seed/core/internal/configuration/ConfigurationMembersInjector.java:40-62 | once a field has failed, the later fields change nothing |
| MembersInjector.StopsAtFirstFailure | core/src/main/java/org/seedstack/seed/core/internal/configuration/ConfigurationMembersInjector.java:40-62 | the run fails with the first failing field's error and keeps what earlier fields injected (no rollback) |
| MembersInjector.InjectSucceedsIff | core/src/main/java/org/seedstack/seed/core/internal/configuration/ConfigurationMembersInjector.java:40-63 | a run succeeds if and only if no field's turn fails |
| MembersInjector.InjectValues | core/src/main/java/org/seedstack/seed/core/internal/configuration/ConfigurationMembersInjector.java:46-56 | after a successful run each field holds its assigned value, or its prior value when it was kept |
| MembersInjector.InjectUntouched | core/src/main/java/org/seedstack/seed/core/internal/configuration/ConfigurationMembersInjector.java:40 | fields that are not configurable are never written |
| MembersInjector.PresentValueWins | core/src/main/java/org/seedstack/seed/core/internal/configuration/ConfigurationMembersInjector.java:43-47 | a configured value is injected and the defaults are ignored |
| MembersInjector.DefaultsMapped | core/src/main/java/org/seedstack/seed/core/internal/configuration/ConfigurationMembersInjector.java:48-51 | an absent value with defaults injects the mapper's result on the node carrying those defaults, or fails wrapped |
| MembersInjector.MandatoryMissing | core/src/main/java/org/seedstack/seed/core/internal/configuration/ConfigurationMembersInjector.java:52-61 | a mandatory field with nothing configured fails, wrapped, with the missing dotted key as cause |
| MembersInjector.OptionalMissingKept | core/src/main/java/org/seedstack/seed/core/internal/configuration/ConfigurationMembersInjector.java:48-56 | an optional field with nothing configured keeps its prior value |
| MembersInjector.SingleStringDefault | core/src/it/java/org/seedstack/seed/core/ConfigurationIT.java:39 | a missing `dummy` key with default `defaultValue` injects the mapper's result on that single value |
| MembersInjector.SingleDefaultIsValueNode | core/src/it/java/org/seedstack/seed/core/ConfigurationIT.java:54 | a single default `5` is handed to the mapper as a value node, not an array |
| MembersInjector.Target.constructor | core/src/main/java/org/seedstack/seed/core/internal/configuration/ConfigurationMembersInjector.java:39 | the target starts with the given field values |
| MembersInjector.ConfigurationMembersInjector.constructor | core/src/main/java/org/seedstack/seed/core/internal/configuration/ConfigurationMembersInjector.java:33-36 | the injector keeps the configuration and the fields |
| MembersInjector.ConfigurationMembersInjector.InjectMembers | core/src/main/java/org/seedstack/seed/core/internal/configuration/ConfigurationMembersInjector.java:39-64 | the loop leaves the target's values and failure equal to the run over all fields |
| ConfigTool.FindFrom | core/src/main/java/org/seedstack/seed/core/internal/configuration/tool/ConfigurationTool.java:55 | a walk that succeeds ends at the node stored at the position it reached |
| ConfigTool.Find | core/src/main/java/org/seedstack/seed/core/internal/configuration/tool/ConfigurationTool.java:55 | a node found from the root is the node stored at that path |
| ConfigTool.FindPassesPrefixes | core/src/main/java/org/seedstack/seed/core/internal/configuration/tool/ConfigurationTool.java:55 | a successful walk passes through a node at every prefix of its path, so it never resolves partially |
| ConfigTool.FindFromInTree | core/src/main/java/org/seedstack/seed/core/internal/configuration/tool/ConfigurationTool.java:55 | in a well-formed tree the walk succeeds if and only if the position it aims at is present |
| ConfigTool.FindInTree | core/src/main/java/org/seedstack/seed/core/internal/configuration/tool/ConfigurationTool.java:55 | in a well-formed tree `find` returns the stored node exactly at the present paths and nothing elsewhere |
| ConfigTool.AttachPoint | core/src/main/java/org/seedstack/seed/core/internal/configuration/tool/ConfigurationTool.java:80-94 | the attach point, when there is one, is a node of the tree |
| ConfigTool.NonEmpty | core/src/main/java/org/seedstack/seed/core/internal/configuration/tool/ConfigurationTool.java:84 | the kept segments are non-empty and no more than the path's |
| ConfigTool.NonEmptyKeepsSegments | core/src/main/java/org/seedstack/seed/core/internal/configuration/tool/ConfigurationTool.java:84 | no empty segment is kept and every non-empty segment is kept as often as it occurs in the path |
| ConfigTool.AttachPointIsFirstMissing | core/src/main/java/org/seedstack/seed/core/internal/configuration/tool/ConfigurationTool.java:82-93 | the attach point is reached by a prefix of the non-empty segments and the next segment's child is missing there |
| ConfigTool.AttachPointNone | core/src/main/java/org/seedstack/seed/core/internal/configuration/tool/ConfigurationTool.java:82-93 | nothing is attached if and only if the non-empty segments already lead to a node |
| ConfigTool.AddChild | core/src/main/java/org/seedstack/seed/core/internal/configuration/tool/ConfigurationTool.java:89 | the tree stays well formed, the node is stored under the parent at its name, the old subtree below it is gone, and nothing outside that child's subtree changes |
| ConfigTool.BuildTreeSpec | core/src/main/java/org/seedstack/seed/core/internal/configuration/tool/ConfigurationTool.java:80-94 | inserting a node keeps the tree well formed |
| ConfigTool.BuildAll | core/src/main/java/org/seedstack/seed/core/internal/configuration/tool/ConfigurationTool.java:47 | inserting the nodes one by one keeps the tree well formed |
| ConfigTool.BuildTreeUnchanged | core/src/main/java/org/seedstack/seed/core/internal/configuration/tool/ConfigurationTool.java:82-93 | a node whose path already leads to a node leaves the tree unchanged |
| ConfigTool.BuildTreeAttaches | core/src/main/java/org/seedstack/seed/core/internal/configuration/tool/ConfigurationTool.java:83-90 | otherwise the node is attached where the walk meets its first missing child, is found there at its name, and nothing outside its subtree changes |
| ConfigTool.Info | core/src/main/java/org/seedstack/seed/core/internal/configuration/tool/ConfigurationTool.java:67-78 | a missing parent is an invalid path naming the whole path; a parent without the property is an invalid property naming it; otherwise the detail is printed |
| ConfigTool.Call | core/src/main/java/org/seedstack/seed/core/internal/configuration/tool/ConfigurationTool.java:51-65 | absent or empty arguments print the root; a resolved path prints its subtree; otherwise the detail decision applies; completion returns 0 |
| ConfigTool.CallFlattensArgs | core/src/main/java/org/seedstack/seed/core/internal/configuration/tool/ConfigurationTool.java:54 | an argument with dots resolves like its segments given apart |
| ConfigTool.DottedArgument | core/src/main/java/org/seedstack/seed/core/internal/configuration/tool/ConfigurationTool.java:54 | `["a.b","c"]` and `["a","b","c"]` give the same outcome |
| ConfigTool.ConfigurationTool.constructor | core/src/main/java/org/seedstack/seed/core/internal/configuration/tool/ConfigurationTool.java:43-48 | the tool starts with the root alone |
| ConfigTool.ConfigurationTool.BuildTree | core/src/main/java/org/seedstack/seed/core/internal/configuration/tool/ConfigurationTool.java:80-94 | the walk keeps the tree well formed and leaves it as the insertion specifies |
| ConfigTool.ConfigurationTool.Initialize | core/src/main/java/org/seedstack/seed/core/internal/configuration/tool/ConfigurationTool.java:43-48 | the nodes are inserted one by one in the order given |
| ApplicationModel.BuildApplicationInfo | core/src/main/java/org/seedstack/seed/core/internal/application/ApplicationPlugin.java:65-90 | a missing or empty id becomes the UUID, a missing name becomes the id, a missing version becomes `1.0.0` |
| ApplicationModel.IdentityNeverEmpty | core/src/main/java/org/seedstack/seed/core/internal/application/ApplicationPlugin.java:68-78 | with a non-empty UUID the id is never empty, nor is a defaulted name |
| ApplicationModel.EmptyIdVersusEmptyName | core/src/main/java/org/seedstack/seed/core/internal/application/ApplicationPlugin.java:69-75 | an empty id is replaced but an empty name is kept |
| ApplicationModel.SetupApplicationStorage | core/src/main/java/org/seedstack/seed/core/internal/application/ApplicationPlugin.java:92-117 | no storage without the key; otherwise the directory is given if and only if it exists or is created, is a directory and is writable |
| ApplicationModel.StorageCheckOrder | core/src/main/java/org/seedstack/seed/core/internal/application/ApplicationPlugin.java:98-108 | the error is that of the first failing check |
| ApplicationModel.NoStorageNoCheck | core/src/main/java/org/seedstack/seed/core/internal/application/ApplicationPlugin.java:93-116 | without a storage key the file system is not consulted |
| ApplicationModel.ApplicationDiagnosticCollector.constructor | core/src/main/java/org/seedstack/seed/core/internal/application/ApplicationPlugin.java:87-111 | the collector starts with neither identity nor storage location |
| ApplicationModel.CorePlugin.constructor | core/src/main/java/org/seedstack/seed/core/internal/application/ApplicationPlugin.java:60 | the core plugin starts with no collectors registered |
| ApplicationModel.CorePlugin.RegisterDiagnosticCollector | core/src/main/java/org/seedstack/seed/core/internal/application/ApplicationPlugin.java:60 | the id is added to the registered collectors |
| ApplicationModel.ApplicationPlugin.constructor | core/src/main/java/org/seedstack/seed/core/internal/application/ApplicationPlugin.java:58 | the plugin starts with no application and a fresh empty collector |
| ApplicationModel.ApplicationPlugin.Init | core/src/main/java/org/seedstack/seed/core/internal/application/ApplicationPlugin.java:49-63 | the identity always reaches the collector; a storage failure stops before the application and the registration; otherwise the application is created, the storage location recorded and the collector registered |
| Runtime.InconsistentNames | core/src/main/java/org/seedstack/seed/core/SeedRuntime.java:83-97 | a name is recorded if and only if some plugin with it is a Seed-package plugin whose version is set and differs from Seed's version |
| Runtime.NoVersionNoCheck | core/src/main/java/org/seedstack/seed/core/SeedRuntime.java:84 | without a Seed version no plugin is recorded |
| Runtime.PrefixWithoutDot | core/src/main/java/org/seedstack/seed/core/SeedRuntime.java:89 | the package test has no trailing dot, so `org.seedstack.seedling` counts as a Seed package |
| Runtime.DiagnosticManager.constructor | specs/src/main/java/org/seedstack/seed/DiagnosticManager.java:41 | the manager starts with no collectors |
| Runtime.DiagnosticManager.RegisterDiagnosticInfoCollector | core/src/main/java/org/seedstack/seed/core/SeedRuntime.java:46 | the name is added to the registered collectors |
| Runtime.PrioritizedProvider.constructor | core/src/main/java/org/seedstack/seed/core/SeedRuntime.java:47 | the layer registry starts empty |
| Runtime.PrioritizedProvider.RegisterProvider | core/src/main/java/org/seedstack/seed/core/SeedRuntime.java:47 | the name now maps to the provider and its priority |
| Runtime.SeedRuntime.constructor | core/src/main/java/org/seedstack/seed/core/SeedRuntime.java:39-49 | `seed` is registered, a fresh in-memory layer is registered as `default` at priority -1000, and the inconsistent plugins are computed |
| Runtime.SeedRuntime.CheckConsistency | core/src/main/java/org/seedstack/seed/core/SeedRuntime.java:83-97 | the loop adds exactly the inconsistent plugins' names |
| Runtime.SeedRuntime.Collect | core/src/main/java/org/seedstack/seed/core/SeedRuntime.java:145-167 | `version`, `inconsistent-plugins` and `context` are present if and only if set or non-empty; `configuration` and `color-output-supported` are always present; no other key appears |
| Runtime.SeedRuntime.ContextAs | core/src/main/java/org/seedstack/seed/core/SeedRuntime.java:51-57 | the context is returned if and only if it is present and the class is assignable from its class |
| SecurityPluginModel.ScopeName | security/core/src/main/java/org/seedstack/seed/security/internal/SecurityPlugin.java:88-95 | the annotation's value if annotated, otherwise the simple name |
| SecurityPluginModel.ScopeStep | security/core/src/main/java/org/seedstack/seed/security/internal/SecurityPlugin.java:87-107 | a non-scope is skipped; a missing constructor fails; a free name is registered with its class; a taken name fails |
| SecurityPluginModel.RegisterScopes | security/core/src/main/java/org/seedstack/seed/security/internal/SecurityPlugin.java:84-85 | a missing candidate collection registers nothing |
| SecurityPluginModel.NoOverwrite | security/core/src/main/java/org/seedstack/seed/security/internal/SecurityPlugin.java:103-107 | no existing entry is ever overwritten |
| SecurityPluginModel.OnlyScopesAdded | security/core/src/main/java/org/seedstack/seed/security/internal/SecurityPlugin.java:86-107 | every new entry comes from a scope candidate with a `(String)` constructor, under its name and with its class |
| SecurityPluginModel.AllScopesRegistered | security/core/src/main/java/org/seedstack/seed/security/internal/SecurityPlugin.java:84-110 | after success every scope candidate is registered under its name with its own class |
| SecurityPluginModel.ConstructorCheckedFirst | security/core/src/main/java/org/seedstack/seed/security/internal/SecurityPlugin.java:97-105 | a missing constructor is reported even when the name is also taken |
| SecurityPluginModel.FailureStays | security/core/src/main/java/org/seedstack/seed/security/internal/SecurityPlugin.java:99-105 | after a failure the later candidates change nothing |
| SecurityPluginModel.SecurityPlugin.constructor | security/core/src/main/java/org/seedstack/seed/security/internal/SecurityPlugin.java:112 | no scope registered and no provider initialised yet |
| SecurityPluginModel.SecurityPlugin.RegisterScopeClasses | security/core/src/main/java/org/seedstack/seed/security/internal/SecurityPlugin.java:86-108 | the registry and failure after the scan loop match the registration specification, stopping at the first missing constructor or duplicate name; providers and the EL flag are untouched |
| SecurityPluginModel.SecurityPlugin.InitializeProviders | security/core/src/main/java/org/seedstack/seed/security/internal/SecurityPlugin.java:112-115 | every provider is initialised exactly once, in list order; the scope registry is untouched |
| SecurityPluginModel.SecurityPlugin.Init | security/core/src/main/java/org/seedstack/seed/security/internal/SecurityPlugin.java:76-122 | the registry and failure match the registration specification; providers are initialised in order only if every scope was registered |
| RestModel.JacksonProvidersAreFour | rest/core/src/main/java/org/seedstack/seed/rest/internal/RestPlugin.java:116-121 | the Jackson providers are four distinct classes |
| RestModel.ConfiguredProviders | rest/core/src/main/java/org/seedstack/seed/rest/internal/RestPlugin.java:104-114 | only the security mappers (when security is off) and the general mappers (when `all` is off) are removed |
| RestModel.DefaultMappersKept | rest/specs/src/main/java/org/seedstack/seed/rest/RestConfig.java:65-66 | with the default flags nothing is removed |
| RestModel.JacksonSurvivesConfiguration | rest/core/src/main/java/org/seedstack/seed/rest/internal/RestPlugin.java:89-91 | configuring the mappers never removes a Jackson provider |
| RestModel.FilterResourceClasses | rest/core/src/main/java/org/seedstack/seed/rest/internal/RestPlugin.java:144-152 | unchanged when a root variant exists; otherwise only the dispatcher is removed |
| RestModel.RestPlugin.constructor | rest/core/src/main/java/org/seedstack/seed/rest/internal/RestPlugin.java:79 | nothing scanned, no root variant, not enabled |
| RestModel.RestPlugin.AddJacksonProviders | rest/core/src/main/java/org/seedstack/seed/rest/internal/RestPlugin.java:116-121 | the four Jackson providers are added and nothing else changes |
| RestModel.RestPlugin.ConfigureExceptionMappers | rest/core/src/main/java/org/seedstack/seed/rest/internal/RestPlugin.java:104-114 | the providers become the configured providers |
| RestModel.RestPlugin.AddRootResourceVariant | rest/core/src/main/java/org/seedstack/seed/rest/internal/RestPlugin.java:154-156 | the variant maps to the root resource, replacing any earlier mapping |
| RestModel.RestPlugin.Initialize | rest/core/src/main/java/org/seedstack/seed/rest/internal/RestPlugin.java:79-102 | without a servlet context the providers are as scanned and nothing is enabled; with one, the Jackson providers are added, the mappers configured, the JSON root added when JSON-home is on, and the plugin enabled |
| RestModel.RestPlugin.Resources | rest/core/src/main/java/org/seedstack/seed/rest/internal/RestPlugin.java:166-169 | empty when none were scanned, the filtered resources otherwise |
| RestModel.RestPlugin.Providers | rest/core/src/main/java/org/seedstack/seed/rest/internal/RestPlugin.java:171-174 | empty when none were scanned, the providers otherwise |
| RestModel.DefaultInitialization | rest/core/src/main/java/org/seedstack/seed/rest/internal/RestPlugin.java:88-99 | with the default flags the providers are the scanned ones plus the Jackson ones and every resource is kept |
| JavaTypes.WrapLong | security/specs/src/main/java/org/seedstack/seed/security/SecurityConfig.java:147 | the result is a `long` congruent to the exact value modulo 2^64, and equal to it when in range |
| SecurityConfiguration.RealmConfig.constructor | security/specs/src/main/java/org/seedstack/seed/security/SecurityConfig.java:69-73 | all fields unset |
| SecurityConfiguration.RealmConfig.SetName | security/specs/src/main/java/org/seedstack/seed/security/SecurityConfig.java:79-82 | sets the name, possibly back to null, only and returns the same object |
| SecurityConfiguration.RealmConfig.SetRoleMapper | security/specs/src/main/java/org/seedstack/seed/security/SecurityConfig.java:88-91 | sets the role mapper, possibly back to null, only and returns the same object |
| SecurityConfiguration.RealmConfig.SetPermissionResolver | security/specs/src/main/java/org/seedstack/seed/security/SecurityConfig.java:97-100 | sets the permission resolver, possibly back to null, only and returns the same object |
| SecurityConfiguration.UserConfig.constructor | security/specs/src/main/java/org/seedstack/seed/security/SecurityConfig.java:105-106 | empty password and no roles |
| SecurityConfiguration.UserConfig.SetPassword | security/specs/src/main/java/org/seedstack/seed/security/SecurityConfig.java:112-115 | sets the password only and returns the same object |
| SecurityConfiguration.UserConfig.AddRole | security/specs/src/main/java/org/seedstack/seed/security/SecurityConfig.java:121-124 | set semantics: adding a role already there changes nothing |
| SecurityConfiguration.SessionsConfig.constructor | security/specs/src/main/java/org/seedstack/seed/security/SecurityConfig.java:130-131 | disabled, with a timeout of 900000 ms |
| SecurityConfiguration.SessionsConfig.SetEnabled | security/specs/src/main/java/org/seedstack/seed/security/SecurityConfig.java:137-140 | sets the flag only and returns the same object |
| SecurityConfiguration.SessionsConfig.SetTimeout | security/specs/src/main/java/org/seedstack/seed/security/SecurityConfig.java:146-149 | stores the seconds times 1000 as a Java `long`, which is exactly the product while it is in range |
| SecurityConfiguration.TimeoutInMilliseconds | security/specs/src/main/java/org/seedstack/seed/security/SecurityConfig.java:146-149 | seconds in, milliseconds out, for every timeout whose product fits in a `long` |
| SecurityConfiguration.TimeoutWraps | security/specs/src/main/java/org/seedstack/seed/security/SecurityConfig.java:147 | just past that range the stored timeout wraps to a negative value |
| SecurityConfiguration.SecurityConfig.constructor | security/specs/src/main/java/org/seedstack/seed/security/SecurityConfig.java:23-27 | default sessions and empty realms, users, roles and permissions |
| SecurityConfiguration.SecurityConfig.AddRealm | security/specs/src/main/java/org/seedstack/seed/security/SecurityConfig.java:37-40 | appends the realm in call order and changes nothing else |
| SecurityConfiguration.SecurityConfig.AddUser | security/specs/src/main/java/org/seedstack/seed/security/SecurityConfig.java:46-49 | replaces the user of that name and changes nothing else |
| SecurityConfiguration.SecurityConfig.AddRole | security/specs/src/main/java/org/seedstack/seed/security/SecurityConfig.java:55-58 | replaces the role's mapping and changes nothing else |
| SecurityConfiguration.SecurityConfig.AddRolePermissions | security/specs/src/main/java/org/seedstack/seed/security/SecurityConfig.java:64-67 | replaces the role's permissions and changes nothing else |
| WebConfiguration.CORSConfig.constructor | web/specs/src/main/java/org/seedstack/seed/web/WebConfig.java:46-48 | disabled, path `/*`, no properties |
| WebConfiguration.CacheConfig.constructor | web/specs/src/main/java/org/seedstack/seed/web/WebConfig.java:101-106 | maximum size 8192, initial size a quarter of it (2048), concurrency 32 |
| WebConfiguration.StaticResourcesConfig.constructor | web/specs/src/main/java/org/seedstack/seed/web/WebConfig.java:65-73 | enabled, minified, gzipped and gzipped on the fly, buffer 65535, default cache |
| WebConfiguration.ServerConfig.constructor | web/specs/src/main/java/org/seedstack/seed/web/WebConfig.java:124-135 | host `0.0.0.0`, port 8080, context path `/`, no HTTPS, no HTTP/2 |
| WebConfiguration.ServerConfig.SetHost | web/specs/src/main/java/org/seedstack/seed/web/WebConfig.java:141-144 | sets the host only and returns the same object |
| WebConfiguration.ServerConfig.SetPort | web/specs/src/main/java/org/seedstack/seed/web/WebConfig.java:150-153 | sets the port only and returns the same object |
| WebConfiguration.ServerConfig.SetContextPath | web/specs/src/main/java/org/seedstack/seed/web/WebConfig.java:159-162 | sets the context path only and returns the same object |
| WebConfiguration.ServerConfig.SetHttps | web/specs/src/main/java/org/seedstack/seed/web/WebConfig.java:168-171 | sets the HTTPS flag only and returns the same object |
| WebConfiguration.ServerConfig.SetHttp2 | web/specs/src/main/java/org/seedstack/seed/web/WebConfig.java:177-180 | sets the HTTP/2 flag only and returns the same object |
| WebConfiguration.UrlConfig.constructor | web/specs/src/main/java/org/seedstack/seed/web/WebConfig.java:202-203 | pattern `/**`, no filters |
| WebConfiguration.UrlConfig.SetPattern | web/specs/src/main/java/org/seedstack/seed/web/WebConfig.java:209-212 | sets the pattern only and returns the same object |
| WebConfiguration.UrlConfig.AddFilters | web/specs/src/main/java/org/seedstack/seed/web/WebConfig.java:218-221 | appends the filters in order after the existing ones |
| WebConfiguration.XSRFConfig.constructor | web/specs/src/main/java/org/seedstack/seed/web/WebConfig.java:226-229 | cookie `XSRF-TOKEN`, header `X-XSRF-TOKEN`, algorithm `SHA1PRNG`, length 32 |
| WebConfiguration.XSRFConfig.SetCookieName | web/specs/src/main/java/org/seedstack/seed/web/WebConfig.java:235-238 | sets the cookie name only and returns the same object |
| WebConfiguration.XSRFConfig.SetHeaderName | web/specs/src/main/java/org/seedstack/seed/web/WebConfig.java:244-247 | sets the header name only and returns the same object |
| WebConfiguration.XSRFConfig.SetAlgorithm | web/specs/src/main/java/org/seedstack/seed/web/WebConfig.java:253-256 | sets the algorithm only and returns the same object |
| WebConfiguration.XSRFConfig.SetLength | web/specs/src/main/java/org/seedstack/seed/web/WebConfig.java:262-265 | sets the length only and returns the same object |
| WebConfiguration.WebSecurityConfig.constructor | web/specs/src/main/java/org/seedstack/seed/web/WebConfig.java:185-186 | no URLs and default XSRF settings |
| WebConfiguration.WebSecurityConfig.AddUrl | web/specs/src/main/java/org/seedstack/seed/web/WebConfig.java:192-195 | appends the URL in call order and returns the same object |
| WebConfiguration.WebConfig.constructor | web/specs/src/main/java/org/seedstack/seed/web/WebConfig.java:22-25 | request diagnostics off and default static resources, CORS and server settings |

## Left out

- **Configuration engine.** The configuration tree library, the priority merge engine (`Coffig`, `CompositeProvider`, `PrioritizedProvider`) and the type mapper are not part of this model.
  - The tree is a datatype. `get`, `set` and `remove` on paths are given the meaning the legacy bridge relies on.
  - The lookup of a typed value and the mapper are functions held by a `Coffig` value.
  - Registering a configuration layer is recorded as a name mapped to its provider and priority. Merging by priority is not modelled.
- **Interpolation of legacy values.** The legacy configuration interpolates its values (`${json:…}`, `${env:…}` and the other registered lookups) before `provide` reads them with `getStringArray`. The model takes the values after interpolation; the interpolation itself is not modelled.
- **Key syntax.** A configuration key becomes a tree path by cutting it at every `.`. Escapes and array indices in key syntax are not modelled.
- **Moving a missing node.** The legacy conversion stores the node read at `jpa.unit` at `jpa.units`. When that node is missing, the Java code hands `null` to the tree's `set`, whose behaviour is not part of this model. The model then leaves `jpa.units` absent.
- **Ordering of collections.** The legacy configuration's keys, the injector's fields and the scope candidates are processed in the order of a sequence. The Java collections' iteration order is unspecified.
- **JSON lookup.** The interpolator, the substitutor and the JSONPath reader are passed in as functions. `toString` of the read value is folded into the reader.
- **`config` tool.**
  - Nodes are a map from a node's position (the child names from the root) to the node. Children are assumed to be keyed by name, and `find` is modelled as a walk of one child per segment, because `Node` is not part of this model.
  - `Initialize` inserts the nodes in the order given. The sort by `Node.compareTo` that precedes insertion is not modelled, since that ordering is not part of this model.
  - The printers are not modelled: the command returns what it would print.
- **Application plugin.**
  - The generated UUID is a parameter.
  - The file system is an oracle that says whether the storage directory exists, can be created, is a directory and is writable.
  - `ApplicationImpl` is reduced to its identity and storage.
  - Logging is not modelled.
- **Seed runtime.**
  - The plugins found by the `ServiceLoader` are given as a list of their names, package names and versions.
  - Java objects are references carrying their class name. `isAssignableFrom` is an oracle.
  - Builder and getters are not modelled.
- Runtime.SeedRuntime.Collect: always puts `configuration`, because the constructor dereferences the configuration, so a runtime with a `null` configuration is never built. The null branch of `collect` is therefore not modelled.
- **Security plugin.**
  - Scanned classes are given as what reflection says about them.
  - The security providers' own `init` is not modelled, only that it runs and in which order.
  - The expression-language flag is recorded. Its warning is not modelled.
- **REST plugin.**
  - Classes are their names, and the provider and resource collections are sets because their Java type is unknown.
  - Hypermedia scanning and the Guice module are not modelled.
  - The servlet context is only present or absent.
  - A servlet context with a missing provider collection is reported as `NullProviders`, where the Java code would fail with a null dereference.
- **Reflection, Guice and EL glue.** Writing a field through reflection cannot fail in the model. The Guice modules, the EL context builder, the type listener, the classpath-scan requests and the `nativeUnitModule` methods are not modelled.
- **Other source files.** The environment lookup, the WebSocket and web security plugins, the JAR input directory and the JNDI error codes are not part of this model. Each is a thin wrapper, or only declares something.
- **Null arguments to the beans' setters.** The realm setters take an optional value, since those fields start out null. The other setters of `SecurityConfig` and `WebConfig` take non-null strings and lists. Java also accepts `null` there, and the model does not capture a field set back to null.
- **Read-only views.** The getters returning unmodifiable views are not modelled: the Dafny fields are values that callers cannot change in place.
- **Concurrency.** None of the modelled code synchronises.
