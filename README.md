# Cocoda mapping editor: a Dafny model

Cocoda is a web application for creating and managing mappings between
knowledge organization systems (concept schemes). This project models the core
of its mapping editor and proves properties about the model:

- **The mapping store** (`MappingStore`, from `src/store/modules/mapping.js`).
  It holds the JSKOS mapping being edited, the snapshot of the `original` it
  was loaded from, and the refresh signals. Every mutation is a method of
  `MappingStore.MappingState`. Its postcondition ties the new state to a pure
  transition function of the old state (`AfterAdd`, `AfterRemove`, ...), and
  the editor's rules are proved about those functions. The rules are:
  - add never leaves more than one concept on the "from" side, though switch
    and set can;
  - add files the concept under the resolved scheme, and a side whose scheme
    differs starts over with just that concept;
  - `original` is dropped when a side restarts;
  - switching twice is the identity;
  - on a "to" side whose scheme is unset or matches, removing a concept just
    added gives back that side's concepts, though the side keeps the scheme
    the add gave it;
  - adding to an empty "from" side without a scheme and then removing gives
    back the whole mapping.
- **Registry choice** (`Registries`). These are the parts of the store's
  actions `getMappings`, `saveMappings` and `removeMappings`, and of the
  `setRefresh` mutation, that choose which registries to use.
- **The root editor** (`RootEditor`, from `src/main.js`). This is the older
  mapping object of the root component. It holds a `jskos` sheet and a
  `reversed` flag. `add`, `remove` and `reverse` are methods of the
  `RootEditor.RootMapping` class, each proved against a transition function.
- **The selection store** (`Selected`, from `src/store/modules/selected.js`).
  It holds the selected scheme and concept for each side.
- **The settings store** (`Settings`, from `src/store/modules/settings.js`).
  It holds the defaults, the write-after-load rule, the merge of persisted
  settings and the derived `creator` record.
- **The helpers** (`Util` and `UriEncoding`, from `src/util/index.js`):
  - concept selectability;
  - notations and the ordering of mappings by them;
  - language-map lookup with its fallbacks;
  - labels, definitions and API links, including `encodeURIComponent`.

`Jskos` holds the shared JSKOS records. JSKOS `compare` is modelled as URI
equality. A field that JSKOS leaves out is modelled by its empty value: `""`
for a URI, `[]` for a list. A registry URI argument that is not given is
modelled as `""`.

## Model

| member | source | states |
|---|---|---|
| Jskos.Lookup | src/util/index.js:117-121 | reading a key of a language map gives the value stored under it, and nothing exactly when no entry has that key |
| Jskos.IndexOfUri | src/store/modules/mapping.js:71-74 | the `findIndex` by URI gives the first position holding the URI, or -1 exactly when no member has it |
| Jskos.RemoveAt | src/store/modules/mapping.js:151-152 | `splice(i, 1)` removes exactly the element at `i` and keeps the others in order |
| Registries.FindByUri | src/store/modules/mapping.js:283-284 | the registry found for a URI is the first one with that URI, and there is none exactly when no registry has it |
| Registries.FindCapable | src/store/modules/mapping.js:279 | the fallback registry is the first one with the capability, and there is none exactly when no registry has it |
| Registries.HomeRegistry | src/store/modules/mapping.js:304-308 | the registry matching `mappingRegistry` wins; otherwise it is the first registry with the fallback capability |
| Registries.RefreshTarget | src/store/modules/mapping.js:274-289 | with `onlyMain`, the registry matching `mappingRegistry`, else the first that can save. Otherwise it is the first registry with the given URI, or none when there is no such registry or no URI is given |
| Registries.FilterServing | src/store/modules/mapping.js:320 | a registry is queried exactly when it serves mappings, or serves occurrences when `all` is set |
| Registries.MappingSources | src/store/modules/mapping.js:301-322 | with `onlyFromMain`, getMappings queries exactly the home registry, or the first that can save, or none. With a URI it queries exactly the first registry with that URI, or none. Otherwise it queries exactly the registries that serve mappings (or occurrences under `all`) |
| Registries.SaveTarget | src/store/modules/mapping.js:338-351 | a named target exists exactly when the first registry with that URI can save, and then it is that registry. Otherwise the registry matching `mappingRegistry` is used when it can save, and there is no target when it cannot. Without a match, the target is the first registry that can save. Every target is in the list and can save |
| Registries.RemoveTarget | src/store/modules/mapping.js:355-368 | a named target exists exactly when the first registry with that URI can SAVE, and then it is that registry. Otherwise the registry matching `mappingRegistry` is used when it can save. Without a match, the first registry that can REMOVE is used, but only when it can also save |
| Registries.RemoveTargetCorrected | src/store/modules/mapping.js:355-368 | with the gate on removal, every target can remove mappings. A named target exists exactly when the first registry with that URI can remove. The matching `mappingRegistry` is used when it can remove; without a match, the first registry that can remove |
| Registries.RemoveOnlyRegistryRefused | src/store/modules/mapping.js:362-365 | a registry that can remove but not save is found by the fallback and then refused |
| Registries.RemoveIgnoresRemoveOnlyRegistries | src/store/modules/mapping.js:365-368 | when no registry can save, removeMappings never finds a target |
| MappingStore.EmptyMapping | src/store/modules/mapping.js:7-13 | the empty mapping: empty memberSets on both sides, no schemes, and the default mapping type |
| MappingStore.GetScheme | src/store/modules/mapping.js:103-105 | the scheme of a side: fromScheme on the left, toScheme on the right |
| MappingStore.GetConcepts | src/store/modules/mapping.js:94-96 | a side's concepts are its memberSet when present, else its memberList, else its memberChoice, else none |
| MappingStore.Added | src/store/modules/mapping.js:69-75 | a concept counts as added exactly when the side's memberSet holds an item with its URI |
| MappingStore.CheckScheme | src/store/modules/mapping.js:84-87 | a side without a scheme accepts any scheme; otherwise only one with the same URI |
| MappingStore.CanAdd | src/store/modules/mapping.js:53-61 | a concept can be added exactly when it is given and not yet on that side; the scheme plays no part |
| MappingStore.ResolveScheme | src/store/modules/mapping.js:121-122 | add uses the given scheme, else the concept's first scheme; there is none exactly when neither exists |
| MappingStore.AfterAdd | src/store/modules/mapping.js:120-135 | see the note on add below the table |
| MappingStore.AfterRemove | src/store/modules/mapping.js:144-156 | an absent URI changes nothing. Otherwise exactly the first member with the URI leaves the side and the rest keep their order. Only a "from" side left empty loses its scheme. Nothing else changes |
| MappingStore.AfterRemoveAll | src/store/modules/mapping.js:164-168 | the side's memberSet is empty and its scheme unset; the other side and every other field are kept |
| MappingStore.AfterSetScheme | src/store/modules/mapping.js:250-254 | only a side without concepts takes the new scheme; otherwise the mapping is unchanged |
| MappingStore.Switched | src/store/modules/mapping.js:256-263 | each side and its scheme move to the other side; every other field is kept |
| MappingStore.NoteCountZero | src/store/modules/mapping.js:228-235 | a note language map counts zero notes exactly when every value is empty |
| MappingStore.CountNotes | src/store/modules/mapping.js:228-231 | the `forOwn` loop adds up the lengths of the note's values |
| MappingStore.KeptNote | src/store/modules/mapping.js:226-241 | setNote drops a missing note, an empty string note, or a language map without any note. Any other note is kept as given |
| MappingStore.MappingState.constructor | src/store/modules/mapping.js:7-22 | the initial state is the empty mapping, no original, and no refresh signal or registry |
| MappingStore.MappingState.Add | src/store/modules/mapping.js:120-135 | the new mapping and original are those of AfterAdd |
| MappingStore.MappingState.Remove | src/store/modules/mapping.js:144-156 | the new mapping is AfterRemove of the old one |
| MappingStore.MappingState.RemoveAll | src/store/modules/mapping.js:164-168 | the new mapping is AfterRemoveAll of the old one |
| MappingStore.MappingState.Set | src/store/modules/mapping.js:178-190 | a given mapping and/or original replace the old ones; a call with neither forgets the original |
| MappingStore.MappingState.Empty | src/store/modules/mapping.js:195-198 | the mapping is the empty mapping again and the original is gone |
| MappingStore.MappingState.SetType | src/store/modules/mapping.js:206-208 | the mapping type becomes the one given URI; nothing else changes |
| MappingStore.MappingState.SetCreator | src/store/modules/mapping.js:216-218 | the creator is replaced; nothing else changes |
| MappingStore.MappingState.SetNote | src/store/modules/mapping.js:226-241 | the note becomes KeptNote of the given note; nothing else changes |
| MappingStore.MappingState.SetScheme | src/store/modules/mapping.js:250-254 | the new mapping is AfterSetScheme of the old one |
| MappingStore.MappingState.Switch | src/store/modules/mapping.js:256-263 | the new mapping is the old one switched |
| MappingStore.MappingState.SetIdentifier | src/store/modules/mapping.js:265-270 | identifiers are attached only when both schemes are set |
| MappingStore.MappingState.SetRefresh | src/store/modules/mapping.js:272-294 | the flag becomes `refresh`. Lowering it clears the registry hint. Raising it records RefreshTarget's URI and keeps the old hint when there is no target |
| MappingStore.MappingState.ForgetRemovedOriginal | src/store/modules/mapping.js:369-378 | the original is forgotten exactly when a removed mapping equals it; the mapping itself is untouched |
| MappingStore.SwitchInvolutive | src/store/modules/mapping.js:256-263 | switching twice gives back the mapping |
| MappingStore.AddKeepsFromSingle | src/store/modules/mapping.js:127-132 | add never leaves more than one concept on the "from" side |
| MappingStore.SwitchMayCrowdFrom | src/store/modules/mapping.js:256-263 | switch, unlike add, can put two concepts on the "from" side |
| MappingStore.AddThenRemoveTo | src/store/modules/mapping.js:120-156 | removing a concept just added to a "to" side with a matching scheme restores that side's concepts and leaves "from" alone |
| MappingStore.AddThenRemoveFrom | src/store/modules/mapping.js:120-156 | on an empty, schemeless "from" side, removing the concept just added restores the whole mapping |
| RootEditor.AddressesFrom | src/main.js:92-98 | a column addresses the physical "from" side exactly when its side differs from `reversed` |
| RootEditor.Concepts | src/main.js:74-76 | the concepts a column shows: the physical "from" side exactly when its side differs from `reversed`, else "to" |
| RootEditor.Scheme | src/main.js:77-79 | the scheme a column shows, by the same rule as its concepts |
| RootEditor.Reversible | src/main.js:89-91 | the editor can reverse exactly when the column showing the physical "to" side holds at most one concept |
| RootEditor.Added | src/main.js:59-69 | a concept is added exactly when the addressed side holds an item with its URI |
| RootEditor.CheckScheme | src/main.js:70-73 | a side without a scheme accepts any scheme, even a missing one; otherwise only one with the same URI |
| RootEditor.AfterAdd | src/main.js:28-44 | a foreign scheme is refused with no change. Otherwise the side takes the scheme as given, even a missing one. The result is true exactly when the concept was new. A new concept replaces a non-empty "from" side and is appended elsewhere. The other side is untouched |
| RootEditor.AfterRemove | src/main.js:45-58 | succeeds exactly when the URI is present. It then removes the first match and keeps the others in order. A side left empty loses its scheme |
| RootEditor.AfterReverse | src/main.js:80-91 | succeeds exactly when "to" holds at most one concept. It then flips the flag and swaps the sheet, so each column shows the same concepts and scheme as before |
| RootEditor.RootMapping.constructor | src/main.js:102-108 | the editor starts with an empty sheet, not reversed |
| RootEditor.RootMapping.FromTo | src/main.js:92-98 | `_fromTo` addresses "from" exactly when the column side differs from `reversed` |
| RootEditor.RootMapping.Add | src/main.js:28-44 | the new state and the result are those of AfterAdd. A missing scheme is accepted on a side that has no scheme |
| RootEditor.RootMapping.Remove | src/main.js:45-58 | the new state and the result are those of AfterRemove |
| RootEditor.RootMapping.Reverse | src/main.js:80-88 | the new state and the result are those of AfterReverse |
| RootEditor.AddKeepsFromSingle | src/main.js:37-43 | add keeps the physical "from" side down to at most one concept |
| RootEditor.RemoveKeepsFromSingle | src/main.js:45-58 | remove keeps the physical "from" side down to at most one concept |
| RootEditor.OperationsKeepFromSingle | src/main.js:28-91 | add, remove and reverse all keep the "from" side down to at most one concept |
| RootEditor.ReverseTwice | src/main.js:80-91 | after one reversal, a second succeeds exactly when "from" held at most one concept, and then restores the editor |
| RootEditor.AddThenAdded | src/main.js:28-69 | after a successful add the concept counts as added |
| Selected.Selection.constructor | src/store/modules/selected.js:2-11 | nothing is selected on either side |
| Selected.Selection.Clear | src/store/modules/selected.js:15-20 | the side's concept is cleared, and so is its scheme when the scheme is cleared; the other side is kept |
| Selected.Selection.Set | src/store/modules/selected.js:21-28 | writes scheme and concept together, or the one table named; the other side is kept |
| Settings.DefaultSettings | src/store/modules/settings.js:3-23 | the nineteen default settings with their default values |
| Settings.CreatorOf | src/store/modules/settings.js:36-43 | see the note on creator below the table |
| Settings.Merge | src/store/modules/settings.js:77 | every default key is present; persisted values win; keys not persisted keep their defaults |
| Settings.SettingsState.constructor | src/store/modules/settings.js:26-29 | the store starts with the defaults, not loaded |
| Settings.SettingsState.Save | src/store/modules/settings.js:49-56 | the settings are replaced only once loaded |
| Settings.SettingsState.Set | src/store/modules/settings.js:58-65 | once loaded, one key takes the value and every other key keeps its value; before loading nothing changes |
| Settings.SettingsState.Loaded | src/store/modules/settings.js:67-69 | the loaded flag takes the payload, true by default |
| Settings.SettingsState.Load | src/store/modules/settings.js:75-87 | after load the store is loaded and holds the persisted settings merged over the defaults |
| Util.CanConceptBeSelected | src/util/index.js:29-35 | a concept without a scheme cannot be selected. Otherwise it can exactly when no scheme is selected or its first scheme has the selected URI |
| Util.ToUpper | src/util/index.js:89 | upper-casing keeps the length and maps each character |
| Util.ToUpperIdempotent | src/util/index.js:89 | upper-casing twice equals upper-casing once |
| Util.Notation | src/util/index.js:85-94 | an item without notation gives "". Otherwise the first notation, upper-cased for a scheme or when the type is "scheme" |
| Util.FieldNotations | src/util/index.js:65-68 | the notations of the first members of memberSet, memberList and memberChoice, in that order |
| Util.FirstNonEmpty | src/util/index.js:66-69 | the `\|\|` chain gives the first non-empty notation, and "" exactly when all are empty |
| Util.FirstNonEmptyStep | src/util/index.js:66-69 | one more turn of the `||` loop keeps the first non-empty notation found so far, or takes the new one |
| Util.LessAsymmetric | src/util/index.js:70-74 | string `<` is asymmetric |
| Util.LessTotal | src/util/index.js:70-76 | of two different strings, one is less than the other |
| Util.CompareNotations | src/util/index.js:70-76 | -1, 1 and 0 exactly when the first notation sorts before, after, or is equal |
| Util.CompareNotationsAntisymmetric | src/util/index.js:70-76 | swapping the notations negates the comparison |
| Util.CompareMappingsByConcepts | src/util/index.js:64-77 | the loop's result is the comparison of the two mappings' first non-empty notations |
| Util.CompareMappingsAntisymmetric | src/util/index.js:64-77 | swapping the mappings negates the comparison, as a sort comparator requires |
| Util.Language | src/util/index.js:100-115 | the language asked for is the given one; without one, the default language when set, else "en"; never "" |
| Util.FirstOtherLanguage | src/util/index.js:124-128 | the value of the first key other than "-"; none exactly when every key is "-" |
| Util.LmLookup | src/util/index.js:116-130 | the truthy value in the language, else the truthy English one, else the first other language's value. None exactly when every key is "-" |
| Util.LmContent | src/util/index.js:102-131 | null without an item; otherwise the lookup of the property in the resolved language |
| Util.PrefLabelOf | src/util/index.js:142-151 | a truthy label content, else the URI when allowed and present, else "" |
| Util.PrefLabelNonEmpty | src/util/index.js:142-151 | with URI fallback, an item with a URI always gets a non-empty label |
| Util.PrefLabelInLanguage | src/util/index.js:142-146 | an item labelled in the requested language shows that label |
| Util.DefinitionOf | src/util/index.js:153-162 | no content gives [], a string is wrapped in a list, a list is returned as is |
| Util.ApiUrl | src/util/index.js:165-174 | there is no link exactly when the concept, its URI or its first scheme's data endpoint is missing. Otherwise the link is the endpoint, "?uri=" and the encoded URI |
| Util.ApiUrlQuery | src/util/index.js:173 | the link starts with the endpoint and "?uri=", followed only by unreserved characters and percent escapes |
| UriEncoding.EncodeUriComponent | src/util/index.js:173 | the encoding emits only unreserved characters and `%`, is never shorter than its input, and leaves unreserved text unchanged |
| UriEncoding.EncodeConcat | src/util/index.js:173 | encoding distributes over concatenation |

Note on `MappingStore.AfterAdd`:
- Without a resolvable scheme, or for a present concept, nothing changes.
- Otherwise the concept is added and the side takes the resolved scheme.
- "from" becomes exactly the concept.
- "to" grows by the concept at its end while the scheme matches, and restarts with the concept when it does not.
- A restarted side drops `original`.
- The other side and every other field are kept.

Note on `Settings.CreatorOf`:
- The label has one entry: the name in the locale, or in English when no locale is set.
- There is a URL exactly when `creatorUrl` is set.
- The URL is `creatorUrl` when that starts with "http", and "http://" plus `creatorUrl` otherwise.

## Left out

- The Vue and Vuex wiring (`commit`, getters as store properties, the store index) is not modelled: each store is a class and each mutation is a method.
- Provider calls and their promises are not modelled: the `getMappings` and `saveMappings` fan-out, `Promise.all`, lodash `union` of the results, and the registry's answer to `removeMappings`. The model stops at choosing the registries. ForgetRemovedOriginal takes the removed mappings as a parameter.
- The choice between a provider's `getAllMappings` and `getMappings` under `all` is not modelled: it only selects which provider call is made.
- The registry check `!registry.provider` is not modelled: every modelled registry has a provider.
- `localforage` persistence and `console.warn` are not modelled. `load` receives what persistence returned, and a refused action returns no registry.
- The `minify` and `addMappingIdentifiers` helpers of the JSKOS library are not modelled. `original` is stored as given, and `setIdentifier` receives the identifiers the library computes, as the parameter `ids`.
- `selectText`, `setupTableScrollSync`, `generateID` and the `delay` constants in `src/util/index.js` are not modelled: they touch the DOM, randomness, or are plain constants.
- The i18n locale and configured language are not modelled: lmContent's fallback language is the `defaultLanguage` parameter.
- `lmContent` without a property, which reads the item itself as a language map, is not modelled as such: `Util.LmLookup` is the same lookup on a given language map.
- JSKOS `compare` also matches items through their `identifier` lists; the model compares URIs only, and an item without a URI has the URI "".
- Util.ToUpper: does not model full Unicode case mapping, because it upper-cases ASCII letters only.
- Util.Less: does not compare by UTF-16 code units as JavaScript does, because it compares by code point; the order differs only above the Basic Multilingual Plane.
- UriEncoding.EncodeUriComponent: does not model the URIError JavaScript throws for a lone surrogate, because characters here are Unicode scalar values.
- A language map has unique keys in JavaScript and lists integer-like keys first; the model takes the map as a list of entries in `Object.keys` order and reads the first entry for a key.
- MappingStore.MappingState.Set: requires a new mapping to carry a memberSet on both sides, which the source does not check. Without one, `add` may fail with a TypeError: on "from" at `.length` (src/store/modules/mapping.js:127), and on "to" at `push` (line 132) when the scheme matches or is unset. It succeeds on "to" under a foreign scheme, which assigns a fresh memberSet (line 128). It returns early, before either, when no scheme resolves (line 122). `remove`, `removeAll`, `setScheme` and `switch` still work on such a mapping, but the model does not cover that case.
- RootEditor.RootMapping.Add: requires a scheme when the addressed side already has one (`SchemeComparable`). Only in that case does `checkScheme` throw, reading the URI of the missing scheme (src/main.js:72). The throw itself is not modelled. A missing scheme on a side without one is modelled: it is written and the concept is added.
- RootEditor.AfterAdd: carries the same precondition as RootEditor.RootMapping.Add, for the same throwing case.
- RootEditor.CheckScheme: carries the same precondition as RootEditor.RootMapping.Add, for the same throwing case.
- Aliasing is not modelled. `set` stores the caller's mapping object itself (src/store/modules/mapping.js:181), so a later `push` or `splice` (lines 132, 152) also changes the caller's object. The model treats mappings as values, so no mutation is visible outside the store.
- Settings.CreatorOf: reads a setting that is not a string as "", where JavaScript would use the value as it is.
- Settings.SettingsState.Set: does not model that, before the first `save`, the store's settings object is the defaults object itself, so a write also alters the defaults. The model keeps them as a value.

## Findings

| source | as written | input that shows it | evidently intended | confidence | as-written member | corrected member |
|---|---|---|---|---|---|---|
| src/store/modules/mapping.js:365 | removeMappings falls back to the first registry that can remove mappings (line 362), then refuses any registry that cannot save mappings | a single registry with canRemoveMappings and not canSaveMappings, with no registry URI and no mappingRegistry: it is found, then refused | the gate checks `canRemoveMappings`, like the fallback on line 362 | medium, not executed | Registries.RemoveTarget, Registries.RemoveOnlyRegistryRefused | Registries.RemoveTargetCorrected |
