# Lucee `ConfigFactory`: version markers, recovering loader and legacy-configuration migration

This project models the core of Lucee's `lucee.runtime.config.ConfigFactory` and proves
properties of the model. The core has three parts:

- **Version markers** (`version_marker.dfy`, module `VersionMarker`).
  - `getNew` compares the `version` file of a context directory with the running engine's
    `"<version>-<releaseTime>"` text. It classifies the start as a fresh install, unchanged, a
    minor update, or an update from a 4.x engine. It rewrites the marker unless the directory is
    read-only.
  - `getUpdateTypeAsString` names the update type.
  - `updateRequiredExtension` and `isRequiredExtension` keep and check the `required-extension`
    marker.
  - A marker file is a `class MarkerFile` whose content and write log are updated in place.
    Its read and write faults are flags.
- **Recovering loader** (`recovering_loader.dfy`, module `RecoveringLoader`).
  - `_loadDocument` reads a document as XML or as JSON, chosen by a case-insensitive suffix test.
  - `loadDocumentCreateIfFails` handles a document that does not load. It keeps the broken file
    under the first free `lucee-<type>.<N>.buggy` name, writes the default document and loads
    once more.
  - The directory is a `class ConfigDirectory` holding a map from file name to text. The probe
    is a loop over it.
- **Migration** (`migration.dfy`, module `Migration`, on `config_tree.dfy`, `keyed_lists.dfy` and
  `pruning.dfy`).
  - `translateConfigFile` rewrites a legacy XML-read configuration tree into the current layout,
    section by section (charset, regional, application, caches, cache handlers, CFX, compiler).
    It then prunes empty branches with `remIfEmpty`.
  - Its primitives are `rem`, `move` (both forms), `copy` and `add`.
  - The tree is a value (`ConfigTree.Value`). Each section is a method that returns the edited
    root.

Alias precedence is stated as `Option.Or` chains: `a.Or(b)` is `a` when present, else `b`. In
every chain the first element is the value written last in program order, so "last non-null
write wins" reads left to right.

`wrappers.dfy` holds `Option` and `Result`. `text.dfy` holds ASCII case mapping, `ucFirst` and
decimal rendering.

Where descriptions of this code and the code disagree, the model follows the code:
- `regional` has four fields (`ConfigFactory.java:224-227`), not five.
- The fields move from the sections to the root, not into the sections.
- `remIfEmpty` prunes Arrays as well as Structs, since it tests `instanceof Collection`
  (`ConfigFactory.java:340`).

All paths below are relative to the repository root.

## Model

| member | source | states |
|---|---|---|
| VersionMarker.UpdateInfo.UpdateTypeAsString | core/src/main/java/lucee/runtime/config/ConfigFactory.java:116-122 | each of `new-none`, `new-fresh`, `new-from4`, `new-minor` is returned iff the type is that constant; any other type yields `unkown:` followed by its decimal rendering |
| VersionMarker.UpdateTypeNamesDistinct | core/src/main/java/lucee/runtime/config/ConfigFactory.java:116-122 | two update types with the same name are equal, unknown types included |
| VersionMarker.EngineInfo.MarkerText | core/src/main/java/lucee/runtime/config/ConfigFactory.java:77 | the marker is the version, a dash and the release time, and both parts can be read back from it |
| VersionMarker.Classify | core/src/main/java/lucee/runtime/config/ConfigFactory.java:78-95 | no marker iff NEW_FRESH; a marker equal to the engine's iff NEW_NONE; otherwise failure iff the old text is not a version; on success the old version is kept, with NEW_FROM4 iff its major is below 5 and NEW_MINOR iff it is 5 or more |
| VersionMarker.MarkerFile.CreateNewFile | core/src/main/java/lucee/runtime/config/ConfigFactory.java:81 | an empty file appears only when there was none; nothing else changes |
| VersionMarker.MarkerFile.Write | core/src/main/java/lucee/runtime/config/ConfigFactory.java:82 | the file holds exactly the text and the write is logged, unless the write fails, in which case nothing changes |
| VersionMarker.MarkerFile.Read | core/src/main/java/lucee/runtime/config/ConfigFactory.java:87 | the file's text, or a read failure |
| VersionMarker.GetNew | core/src/main/java/lucee/runtime/config/ConfigFactory.java:72-96 | the result is `Classify` unless reading or writing throws; the marker is rewritten with the engine's text exactly when it is missing or different and not read-only; an equal marker, or a read-only directory, is never written; a failed write leaves the file as `createNewFile` left it |
| VersionMarker.GetNewOr | core/src/main/java/lucee/runtime/config/ConfigFactory.java:63-70 | any failure of `getNew`, faults and a malformed old version alike, yields the default; otherwise the same result as `getNew`; the marker file ends as `getNew` leaves it, failing or not: rewritten with the engine's text when missing or different, readable and not read-only; left as `createNewFile` left it when that write fails; otherwise unchanged |
| VersionMarker.GetNewTwice | core/src/main/java/lucee/runtime/config/ConfigFactory.java:72-96 | on a fault-free writable marker, a second `getNew` for the same engine reports NEW_NONE |
| VersionMarker.UpdateRequiredExtension | core/src/main/java/lucee/runtime/config/ConfigFactory.java:126-138 | without a write fault the marker holds the engine's text; with one the marker is only created when missing, and the failure is swallowed |
| VersionMarker.IsRequiredExtension | core/src/main/java/lucee/runtime/config/ConfigFactory.java:140-154 | true iff the marker exists, can be read and equals the engine's text; absent, different or unreadable gives false |
| VersionMarker.RequiredExtensionRoundTrip | core/src/main/java/lucee/runtime/config/ConfigFactory.java:126-154 | after an update without faults the check is true for the same engine, and for another engine iff its marker text is the same |
| RecoveringLoader.XmlNameIgnoresCase | core/src/main/java/lucee/runtime/config/ConfigFactory.java:387 | two names equal up to ASCII case are read in the same format |
| RecoveringLoader.LoadDocument | core/src/main/java/lucee/runtime/config/ConfigFactory.java:384-391 | a missing file fails; an `.xml`/`.xml.cfm` name yields the `cfLuceeConfiguration` Struct of the parsed XML or fails when unparsable; any other name succeeds iff the JSON is a Struct, and yields that Struct |
| RecoveringLoader.BuggyName | core/src/main/java/lucee/runtime/config/ConfigFactory.java:188 | the name starts with `lucee-`, ends with `.buggy`, and its length is fixed by the type and the number's digits |
| RecoveringLoader.BuggyNameInjective | core/src/main/java/lucee/runtime/config/ConfigFactory.java:188 | different numbers give different buggy names |
| RecoveringLoader.BuggyNamesStep | core/src/main/java/lucee/runtime/config/ConfigFactory.java:188 | each probe step looks at a name not looked at before |
| RecoveringLoader.FirstFreeFrom | core/src/main/java/lucee/runtime/config/ConfigFactory.java:186-188 | once every name below `n` is taken, the probe from `n` ends at the smallest free number from `n` on |
| RecoveringLoader.FirstFreeBuggyNumber | core/src/main/java/lucee/runtime/config/ConfigFactory.java:186-188 | the smallest `N >= 1` whose buggy name is not taken |
| RecoveringLoader.ConfigDirectory.ProbeBuggyNumber | core/src/main/java/lucee/runtime/config/ConfigFactory.java:186-188 | the probe loop stops at `FirstFreeBuggyNumber` of the directory's names |
| RecoveringLoader.Quarantined | core/src/main/java/lucee/runtime/config/ConfigFactory.java:185-191 | keeping a broken file aside overwrites nothing: every other file keeps its text, the broken text sits under a name that was free, the original name is gone, and nothing changes when the file did not exist |
| RecoveringLoader.QuarantineAdvances | core/src/main/java/lucee/runtime/config/ConfigFactory.java:185-191 | a directory still holding the other files and the name just used has a larger first free number |
| RecoveringLoader.SuccessiveQuarantinesDistinct | core/src/main/java/lucee/runtime/config/ConfigFactory.java:185-193 | a second failure after the default was written back is kept under a larger number than the first |
| RecoveringLoader.LoadDocumentCreateIfFails | core/src/main/java/lucee/runtime/config/ConfigFactory.java:175-195 | a successful first load changes nothing; otherwise an existing file is quarantined, the default template is written and the retry's result is returned unguarded; a missing template fails after the broken file has been quarantined, with no template written |
| ConfigTree.GetAsStruct | core/src/main/java/lucee/runtime/config/ConfigFactory.java:203-205 | the Struct under the name, or an empty one, which the parent then holds; other keys are unchanged |
| ConfigTree.GetAsArray | core/src/main/java/lucee/runtime/config/ConfigFactory.java:258 | the Array under the name, or an empty one, which the parent then holds; other keys are unchanged |
| ConfigTree.Rem | core/src/main/java/lucee/runtime/config/ConfigFactory.java:348-350 | the key is absent; removing an absent key is a no-op; no other key changes |
| ConfigTree.Move | core/src/main/java/lucee/runtime/config/ConfigFactory.java:352-356 | the key leaves `from`; `to` gets its value iff it was present, and keeps its own otherwise; nothing else changes in either |
| ConfigTree.MoveAs | core/src/main/java/lucee/runtime/config/ConfigFactory.java:358-361 | as `Move`, but the value lands under `toKey` |
| ConfigTree.Copy | core/src/main/java/lucee/runtime/config/ConfigFactory.java:368-371 | `to` gets the value under `toKey` iff present in `from`; `from` is not changed; no other key of `to` changes |
| ConfigTree.Add | core/src/main/java/lucee/runtime/config/ConfigFactory.java:363-366 | null data is a no-op before the key is looked at; a null key fails; otherwise exactly that key is set |
| ConfigTree.MoveEach | core/src/main/java/lucee/runtime/config/ConfigFactory.java:224-227 | a run of `move` calls: every listed key is moved as by `Move`, every other key is untouched in both Structs |
| ConfigTree.MoveEachPrefixed | core/src/main/java/lucee/runtime/config/ConfigFactory.java:238-240 | every `prefix + ucFirst(type)` key is moved; keys not generated from the list are untouched |
| ConfigTree.PrefixedKeysMeaning | core/src/main/java/lucee/runtime/config/ConfigFactory.java:264-266 | a key is generated iff it is `prefix + ucFirst(t)` for an entry `t` of the list |
| Pruning.RemIfEmpty | core/src/main/java/lucee/runtime/config/ConfigFactory.java:334-346 | the post-order prune yields `Pruned` of its input |
| Pruning.RemIfEmptyInStruct | core/src/main/java/lucee/runtime/config/ConfigFactory.java:335-345 | the key loop over a Struct yields `Pruned` of the Struct |
| Pruning.RemIfEmptyInArray | core/src/main/java/lucee/runtime/config/ConfigFactory.java:335-345 | the key loop over an Array, with every element visited, yields `Pruned` of the Array |
| Pruning.PrunedFields | core/src/main/java/lucee/runtime/config/ConfigFactory.java:338-344 | each key of a pruned Struct holds its pruned value, and is dropped iff that is an empty collection |
| Pruning.PrunedHasNoEmpty | core/src/main/java/lucee/runtime/config/ConfigFactory.java:334-346 | no Struct or Array below the pruned value is empty |
| Pruning.PrunedKeepsPrunedTree | core/src/main/java/lucee/runtime/config/ConfigFactory.java:340-343 | a value with no empty collection below it, scalars included, is left exactly as it is |
| Pruning.PrunedIdempotent | core/src/main/java/lucee/runtime/config/ConfigFactory.java:334-346 | pruning twice gives the same as pruning once |
| Pruning.PrunedEmptyIff | core/src/main/java/lucee/runtime/config/ConfigFactory.java:342-343 | a collection is pruned to empty iff it holds no text anywhere below it |
| Pruning.RemIfEmptyAsWrittenKeepsEmpty | core/src/main/java/lucee/runtime/config/ConfigFactory.java:334-346 | two empty Structs in a row in an Array: the loop as written leaves one behind, while `Pruned` removes the entry |
| KeyedLists.KeyedInOrderMeaning | core/src/main/java/lucee/runtime/config/ConfigFactory.java:268-273 | converting first to last succeeds iff every Struct element has a name; then each name holds the last element with that name, stripped of it, and other keys keep their value |
| KeyedLists.KeyedInReverseMeaning | core/src/main/java/lucee/runtime/config/ConfigFactory.java:282-289 | converting last to first succeeds iff every Struct element has an id; then each id holds the first element with that id, and other keys keep their value |
| KeyedLists.AddEachByKey | core/src/main/java/lucee/runtime/config/ConfigFactory.java:268-273 | the iterator loop computes the first-to-last conversion |
| KeyedLists.KeyedInOrderFailureSticks | core/src/main/java/lucee/runtime/config/ConfigFactory.java:272 | once an unnamed Struct has failed the conversion, no later element changes the outcome |
| KeyedLists.KeyedInReverseFailureSticks | core/src/main/java/lucee/runtime/config/ConfigFactory.java:287 | the same for the last-to-first conversion |
| KeyedLists.NonStructs | core/src/main/java/lucee/runtime/config/ConfigFactory.java:285-288 | the elements left in the Array are no Structs and no more than there were |
| KeyedLists.NonStructsMeaning | core/src/main/java/lucee/runtime/config/ConfigFactory.java:285-288 | the elements left in the Array are exactly its non-Struct elements |
| Migration.MergeTemplateCharset | core/src/main/java/lucee/runtime/config/ConfigFactory.java:206-208 | `templateCharset` is `charset.templateCharset`, else `fileSystem.encoding`, else `fileSystem.charset`, else the old value; nothing else in the root changes |
| Migration.MergeWebCharset | core/src/main/java/lucee/runtime/config/ConfigFactory.java:210-213 | `webCharset` is `charset.webCharset`, else `regional.defaultEncoding`, else `fileSystem.encoding`, else `charset.charset`, else the old value |
| Migration.MergeResourceCharset | core/src/main/java/lucee/runtime/config/ConfigFactory.java:215-217 | `resourceCharset` is `charset.resourceCharset`, else `fileSystem.encoding`, else `fileSystem.charset`, else the old value |
| Migration.MergeCharsets | core/src/main/java/lucee/runtime/config/ConfigFactory.java:206-217 | the three chains hold together; no other root key changes |
| Migration.TranslateCharset | core/src/main/java/lucee/runtime/config/ConfigFactory.java:201-220 | the three chains over the original sections; `charset` is gone; `regional` and `fileSystem` are kept or created empty; no other key changes |
| Migration.TranslateRegional | core/src/main/java/lucee/runtime/config/ConfigFactory.java:222-229 | the four regional fields come from `regional`, else keep their value; `regional` is gone; no other key changes |
| Migration.MergeRequestTimeout | core/src/main/java/lucee/runtime/config/ConfigFactory.java:242-243 | `requestTimeout` is `application.requesttimeout`, else `scope.requesttimeout`, else the old value; both sources lose the key |
| Migration.MergeAdminSync | core/src/main/java/lucee/runtime/config/ConfigFactory.java:248-249 | `adminSync` is `application.adminSync`, else `application.adminSynchronisation`, else the old value |
| Migration.MoveEarlyApplicationSettings | core/src/main/java/lucee/runtime/config/ConfigFactory.java:234-241 | the early fields and every `cachedWithin<Type>` move to the root; `allowUrlRequesttimeout` lands as `requestTimeoutInURL`; nothing else changes |
| Migration.MoveLateApplicationSettings | core/src/main/java/lucee/runtime/config/ConfigFactory.java:242-249 | `requestTimeout`, the late fields and `adminSync` move with their precedence; `scope` loses `requesttimeout` |
| Migration.BeginApplication | core/src/main/java/lucee/runtime/config/ConfigFactory.java:232-241 | the sections are fetched and the early moves are made; the other keys are unchanged |
| Migration.FinishApplication | core/src/main/java/lucee/runtime/config/ConfigFactory.java:242-251 | the late moves are made; `application` is gone and `scope` is stored back without `requesttimeout` |
| Migration.TranslateApplication | core/src/main/java/lucee/runtime/config/ConfigFactory.java:231-252 | every application field, each with its precedence, over the original sections; `application` is gone; `scope` loses `requesttimeout`; no other key changes |
| Migration.BeginCaches | core/src/main/java/lucee/runtime/config/ConfigFactory.java:256-266 | `cacheClasses` comes from `caches.cache`; each `default<Type>` comes from `cache`; the connections are `cache.connection` |
| Migration.TranslateCaches | core/src/main/java/lucee/runtime/config/ConfigFactory.java:255-275 | succeeds iff every connection Struct has a name; then `caches` is the first-to-last conversion (last name wins), `cacheClasses` and the defaults are moved, `cache` is gone, and nothing else changes |
| Migration.ConvertCacheHandlers | core/src/main/java/lucee/runtime/config/ConfigFactory.java:282-289 | the reverse loop succeeds iff the last-to-first conversion does (first id wins); then the Array keeps only its non-Structs unless an element with id `cacheHandler` replaced it |
| Migration.TranslateCacheHandlers | core/src/main/java/lucee/runtime/config/ConfigFactory.java:278-290 | succeeds iff every handler Struct has an id; then `cacheHandlers` holds the conversion over the section as fetched |
| Migration.TranslateCfx | core/src/main/java/lucee/runtime/config/ConfigFactory.java:293-305 | succeeds iff every `extTag` Struct has a name; then `cfx` holds the first-to-last conversion, `extTags` is gone, and nothing else changes |
| Migration.MergeSuppressWhitespace | core/src/main/java/lucee/runtime/config/ConfigFactory.java:310-311 | `suppressWhitespaceBeforeArgument` is `compiler.suppressWsBeforeArg`, else the misspelt `supressWsBeforeArg`, else the old value |
| Migration.MoveCompilerSwitches | core/src/main/java/lucee/runtime/config/ConfigFactory.java:312-313 | `dotNotationUpperCase` moves; `fullNullSupport` lands as `nullSupport` |
| Migration.MoveCompilerSettings | core/src/main/java/lucee/runtime/config/ConfigFactory.java:310-317 | every compiler field with its precedence; no other root key changes |
| Migration.TranslateCompiler | core/src/main/java/lucee/runtime/config/ConfigFactory.java:308-319 | the same over the original section; `compiler` is gone |
| Migration.TranslateCharsetAndRegional | core/src/main/java/lucee/runtime/config/ConfigFactory.java:201-229 | `CharsetsMigrated`: each of the three charsets from its first present alias in the original `charset`, `regional` and `fileSystem`, each regional field from `regional`, else the old value; `fileSystem` kept or created empty; `charset` and `regional` are gone; no other key changes |
| Migration.TranslateSettings | core/src/main/java/lucee/runtime/config/ConfigFactory.java:201-252 | `CharsetsMigrated` and `ApplicationMigrated` both over the original root; `charset`, `regional` and `application` are gone; only keys these three sections write change |
| Migration.CharsetsKeptByApplication | core/src/main/java/lucee/runtime/config/ConfigFactory.java:231-252 | the application section writes none of the keys the charset and regional sections set, so what they set survives it |
| Migration.ApplicationSourcesKept | core/src/main/java/lucee/runtime/config/ConfigFactory.java:201-252 | the application section reads nothing the charset and regional sections write, so it sets the same values as on the original root |
| Migration.TranslateHandlersAndCfx | core/src/main/java/lucee/runtime/config/ConfigFactory.java:277-305 | succeeds iff both lists are fully keyed; then `cacheHandlers` holds the last-to-first conversion (its Array reduced to the non-Structs unless an element with id `cacheHandler` replaced it) and `cfx` the first-to-last conversion; `extTags` is gone; only `cacheHandlers`, `extTags` and `cfx` change |
| Migration.TranslateLists | core/src/main/java/lucee/runtime/config/ConfigFactory.java:254-305 | succeeds iff all three lists are fully keyed; then `ListsMigrated`: `caches`, `cacheHandlers` and `cfx` hold their conversions over the original containers and `cacheClasses` and every `default<Type>` are moved; `cache` and `extTags` are gone; only keys these sections write change |
| Migration.ListsKeptByCompiler | core/src/main/java/lucee/runtime/config/ConfigFactory.java:307-319 | unless a cache type generates `defaultFunctionOutput`, the compiler section writes none of the keys the list sections set |
| Migration.CompilerSourcesKeptByLists | core/src/main/java/lucee/runtime/config/ConfigFactory.java:254-319 | unless a cache type generates `defaultFunctionOutput`, the compiler section reads nothing the list sections write |
| Migration.TranslateListsAndCompiler | core/src/main/java/lucee/runtime/config/ConfigFactory.java:254-319 | succeeds iff all three lists are fully keyed; then, unless a cache type generates `defaultFunctionOutput`, `ListsMigrated` and `CompilerMigrated` over the original root; `cache`, `extTags` and `compiler` are gone; only keys these sections write change |
| Migration.CharsetsKeptByLater | core/src/main/java/lucee/runtime/config/ConfigFactory.java:254-319 | the list and compiler sections write none of the keys the charset and regional sections set |
| Migration.ApplicationKeptByLater | core/src/main/java/lucee/runtime/config/ConfigFactory.java:254-319 | the list and compiler sections write none of the keys the application section sets |
| Migration.ListsSourcesKept | core/src/main/java/lucee/runtime/config/ConfigFactory.java:201-305 | the list sections read nothing the settings sections write |
| Migration.CompilerSourcesKeptBySettings | core/src/main/java/lucee/runtime/config/ConfigFactory.java:201-319 | the compiler section reads nothing the settings sections write |
| Migration.TranslateSections | core/src/main/java/lucee/runtime/config/ConfigFactory.java:201-319 | succeeds iff all three lists are fully keyed; then `SectionsMigrated` over the original root: every key a section sets holds what that section sets from the original containers (the list and compiler keys unless a cache type generates `defaultFunctionOutput`), the six legacy containers are gone, and every key no section writes keeps its value |
| Migration.TranslateConfigFile | core/src/main/java/lucee/runtime/config/ConfigFactory.java:197-321 | fails iff one of the three lists holds an unkeyed Struct; on success the result is the pruned form of a root satisfying `SectionsMigrated` over `cfLuceeConfiguration`; nothing below the root is empty; the six containers are gone; the charsets, regional fields, `requestTimeout` and `adminSync` hold their pruned precedence values; untouched keys hold their pruned original values; a document without text, an empty one in particular, gives an empty root |
| Migration.SettingsPruned | core/src/main/java/lucee/runtime/config/ConfigFactory.java:201-321 | after the prune, each charset, regional field, `requestTimeout` and `adminSync` holds the pruned value of its precedence chain |
| Migration.FileSystemCharsetMigrated | core/src/main/java/lucee/runtime/config/ConfigFactory.java:201-217 | a legacy root whose only setting is `fileSystem.charset` migrates with that text as `templateCharset` and `resourceCharset` and with no `webCharset` |

## Left out

- XML reading (`XMLConfigReader`), JSON interpretation and JSON serialisation are parameters
  (`readXml`, `readJson`) or are not modelled. The write of the migrated file
  (`ConfigFactory.java:329-331`) is not modelled.
- `OSGiUtil.toVersion` is the parameter `toVersion`. A parse failure is `None`, which
  `getNew` reports as `MalformedVersion`.
- Filesystem faults are flags: marker read and write faults. The loader models only a missing
  default template. Faults of `copy` and `delete` in the quarantine are not modelled.
- Logging and the thread-local configuration context have no effect on the result and are not
  modelled.
- `ConfigWebUtil.getAsStruct`/`getAsArray` are not part of this model. `GetAsStruct`/`GetAsArray`
  model get-or-create, with a value of the wrong kind replaced by an empty container.
- `Caster.toString` of a missing or non-text name gives null, and adding under a null key
  throws. The model reports this as `NullKey`.
- Lucee keys are case-insensitive. The model compares keys exactly. Every literal in the
  migration is spelled consistently, so no rule changes.
- Struct ordering is not modelled: a Struct is a map.
- The sub-Structs the source holds by reference while editing the root are values stored back at
  the end of their section. No rule writes a root key under which such a Struct lives.
- RecoveringLoader.ConfigDirectory.ProbeBuggyNumber: the Java `int` counter could wrap after 2^31 files. The model counts with
  an unbounded `nat`.
- Migration.TranslateSections, Migration.TranslateListsAndCompiler, Migration.TranslateConfigFile: the
  values of the list and compiler keys are stated only when no cache type generates
  `defaultFunctionOutput`. Such a type (`functionOutput`) would make the caches section and the
  compiler section write the same root key, and which value wins would then depend on both.
- Pruning.RemIfEmpty, Migration.TranslateConfigFile: they model the intended prune of Arrays,
  not the index shift that `remove` at `ConfigFactory.java:343` causes (see Findings; the
  as-written loop is `Pruning.RemIfEmptyAsWritten`).
- Text.Lower, Text.Upper, Text.UcFirst, RecoveringLoader.EndsWithIgnoreCase,
  RecoveringLoader.IsXmlName: they map ASCII letters only, while Java's case mapping is Unicode.
- The `cacheTypes` and `cacheTypesMax` parameters accept any strings. The source iterates the
  fixed lists `STRING_CACHE_TYPES` and `STRING_CACHE_TYPES_MAX` of `ConfigWebFactory`, which
  is not part of this model.
- Concurrency is not modelled: the source has no locking around the marker or the probe.

## Findings

| source | as written | input that shows it | evidently intended | confidence | as-written member | corrected member |
|---|---|---|---|---|---|---|
| core/src/main/java/lucee/runtime/config/ConfigFactory.java:335-344 | the keys of an Array are taken before the loop, but removing element `k` shifts the later elements down, so the element after a removed one is never visited (provided Lucee's `Array.remove` shifts, as a list does) | a root whose `mapping` is an Array of two empty Structs keeps `mapping` holding one empty Struct | every empty collection below the root is removed | not executed | Pruning.RemIfEmptyAsWritten, Pruning.RemIfEmptyAsWrittenKeepsEmpty | Pruning.RemIfEmpty, Pruning.Pruned, Pruning.PrunedHasNoEmpty |
