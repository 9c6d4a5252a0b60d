# Tag editor and OpenProject transition form: a Dafny model

This project models the decision logic inside two Angular components of the
Super Productivity task manager. It leaves out the components' framework wiring.

- **`TagEditComponent`** is the chip/autocomplete widget that assigns tags to a
  task. Four things are modelled:
  - which catalogue tags it suggests for the typed text (`filteredSuggestions`);
  - which assigned tags it shows as chips (`tagItems`);
  - which events a chip entry, an autocomplete pick or a chip removal emits
    (`add`, `selected`, `remove`, `_addByTitle`, `_add`). A chip entry either
    attaches an existing tag or asks for a new one;
  - how a key press switches the separator keys and raises Ctrl+Enter
    (`triggerCtrlEnterSubmit`).

  The tag catalogue and the assigned ids are snapshots the host supplies. All
  `EventEmitter`s together are one append-only event log.
- **`OpenProjectAdditionalCfgComponent`** is the form that configures how task
  state changes map to OpenProject work-package transitions. Four things are
  modelled:
  - the `cfg` setter. It normalises an incoming provider config against the
    default template, stores it, and derives the rows of the transition table;
  - `getTransition` and `showSetProgressOption`;
  - `setTransition` and `partialModelChange`. These write into the stored
    config and announce it on `modelChange`;
  - the guard of `updateTransitionOptions`.

  A provider config is a JSON object. The model writes it as a map from field
  names to JSON values.

Files:

- `js_array.dfy` (module `JsArray`): `filter` and `find` as
  functions on sequences, and the order lemma about `filter`.
- `js_text.dfy` (module `JsText`): `trim` with ECMAScript's whitespace set,
  ASCII `toLowerCase`, prefix matching, and the Cyrillic key test.
- `tag_edit.dfy` (module `TagEdit`): the tag widget. Pure functions describe
  what is shown and emitted. The class `TagEditComponent` appends to its event
  log and clears its input.
- `open_project_cfg.dfy` (module `OpenProjectCfg`): the transition form. Pure
  functions describe normalisation. The class
  `OpenProjectAdditionalCfgComponent` holds `_cfg` (the field `stored`), the
  transition table and the `modelChange` log.

Two behaviours deserve a note:

- With no text typed, `filteredSuggestions` returns the whole catalogue,
  assigned tags included. Only typed text excludes assigned tags.
- The cleanup of transition keys, as written, also keeps keys named like the
  members every object inherits, such as `toString` (see Findings). The model
  states that behaviour in `OpenProjectCfg.CleanupAsWritten`. The setter
  (`SetCfg`, through `Normalise` and `StripUnknownKeys`) uses the corrected,
  own-key cleanup instead.

## Model

| member | source | states |
|---|---|---|
| `JsArray.Filter` | src/app/features/tag/tag-edit/tag-edit.component.ts:88-92 | Every result element is an input element that passes the test, and every input element that passes is in the result. |
| `JsArray.KeptIndices` | src/app/features/tag/tag-edit/tag-edit.component.ts:88-92 | Lists the positions that pass the test, strictly increasing, and lists every such position. |
| `JsArray.FilterSelectsKeptIndices` | src/app/features/tag/tag-edit/tag-edit.component.ts:88-92 | The k-th element `filter` keeps is the input element at the k-th passing position, so `filter` keeps order. |
| `JsArray.FindIndex` | src/app/features/tag/tag-edit/tag-edit.component.ts:149-151 | The first-match search behind `find`. Returns none exactly when no element passes; otherwise a position that passes, with no passing position before it. |
| `JsArray.Find` | src/app/features/tag/tag-edit/tag-edit.component.ts:99 | Returns undefined exactly when no element passes; otherwise the element at the first passing position. |
| `JsText.Trim` | src/app/features/tag/tag-edit/tag-edit.component.ts:114-115 | The result is a slice of the input with only whitespace cut off either end. It is empty exactly when the input is all whitespace, and otherwise starts and ends with a non-whitespace character. |
| `JsText.TrimIdempotent` | src/app/features/tag/tag-edit/tag-edit.component.ts:114-115 | Trimming the trimmed text changes nothing. |
| `JsText.Lower` | src/app/features/tag/tag-edit/tag-edit.component.ts:87-90 | The result has no ASCII capital left, and a string comes back unchanged exactly when it has none. |
| `JsText.LowerIdempotent` | src/app/features/tag/tag-edit/tag-edit.component.ts:87-90 | Lowercasing the lowercased text changes nothing. |
| `TagEdit.FilteredSuggestions` | src/app/features/tag/tag-edit/tag-edit.component.ts:82-93 | Absent or empty text gives the catalogue unchanged, assigned tags included. Otherwise a tag is suggested exactly when its lowercased title starts with the lowercased text and its id is not assigned. |
| `TagEdit.FilteredSuggestionsKeepCatalogueOrder` | src/app/features/tag/tag-edit/tag-edit.component.ts:87-92 | With text typed, the suggestions are the catalogue at a strictly increasing list of positions. A position is listed exactly when its tag matches and is unassigned. |
| `TagEdit.FilteredSuggestionsIgnoreInputCase` | src/app/features/tag/tag-edit/tag-edit.component.ts:87-90 | Two texts that lowercase alike give the same suggestions. |
| `TagEdit.FilteredSuggestionsExample` | src/app/features/tag/tag-edit/tag-edit.component.ts:82-93 | "wo" over the catalogue [Work, Home] suggests only Work. |
| `TagEdit.Lookups` | src/app/features/tag/tag-edit/tag-edit.component.ts:98-99 | One lookup per assigned id, in order. A lookup finds a tag exactly when some catalogue tag has that id, and then it is the first catalogue tag with that id. |
| `TagEdit.TagItems` | src/app/features/tag/tag-edit/tag-edit.component.ts:95-102 | Empty while the catalogue is empty. Never more chips than assigned ids. Every chip is a catalogue tag whose id is assigned. |
| `TagEdit.TagItemsFollowTagIds` | src/app/features/tag/tag-edit/tag-edit.component.ts:95-102 | The chips follow a strictly increasing list of positions in `tagIds`. Each chip is the first catalogue tag with that position's id. A position is listed exactly when the catalogue has that id; unknown ids are dropped. |
| `TagEdit.ExistingSuggestionByTitle` | src/app/features/tag/tag-edit/tag-edit.component.ts:149-151 | Returns undefined exactly when no catalogue title equals the text. Otherwise returns the first catalogue tag whose title equals it exactly, case-sensitive. |
| `TagEdit.AttachEvents` | src/app/features/tag/tag-edit/tag-edit.component.ts:153-158 | Emits nothing exactly when the id is already assigned; otherwise emits only `addItem(id)`. |
| `TagEdit.AddByTitleEvents` | src/app/features/tag/tag-edit/tag-edit.component.ts:160-167 | Emits at most one event. It is `addNewItem(v)` exactly when no catalogue title equals `v`. An `addItem` carries the id of an unassigned catalogue tag titled `v`. Nothing is emitted only when a tag titled `v` is already assigned. When titles repeat, the first tag titled `v` decides: its `_add` events are emitted, so nothing is emitted when that tag is assigned, even if a later tag with the same title is not. |
| `TagEdit.AttachIsIdempotent` | src/app/features/tag/tag-edit/tag-edit.component.ts:153-158 | Suppose the host appends the emitted id to a duplicate-free assignment. The assignment stays duplicate-free, contains the id, and adding the id again emits nothing. |
| `TagEdit.ChipInputEvents` | src/app/features/tag/tag-edit/tag-edit.component.ts:110-116 | Whitespace-only text emits nothing. A requested new tag is titled exactly the trimmed text: non-empty, no whitespace at either end, and no catalogue tag has that title. An attached id is that of an unassigned catalogue tag with the trimmed title. Non-blank text with no matching title asks for exactly one new tag. Non-blank text whose first matching tag has a given id emits exactly the `_add` events for that id. |
| `TagEdit.ExistingTitleAttachesOnce` | src/app/features/tag/tag-edit/tag-edit.component.ts:104-122 | Typing an existing tag's title twice attaches it once. After the host appends the first entry's id, the assignment is duplicate-free and the second entry emits nothing. |
| `TagEdit.AddByTitleExamples` | src/app/features/tag/tag-edit/tag-edit.component.ts:149-167 | "Work" attaches tag 1; "NewTag" asks for a new tag; id 1 among [1, 2] emits nothing; id 3 emits `addItem(3)`. |
| `TagEdit.TagEditComponent.constructor` | src/app/features/tag/tag-edit/tag-edit.component.ts:65-80 | Starts with the given inputs and view children, an empty control, separator keys Enter and comma, and no events. |
| `TagEdit.TagEditComponent.Add` | src/app/features/tag/tag-edit/tag-edit.component.ts:104-122 | With no autocomplete it fails and changes nothing. With the panel open it changes nothing. With the panel closed it appends the entry's events, clears the event's input element and sets the control to null. |
| `TagEdit.TagEditComponent.Remove` | src/app/features/tag/tag-edit/tag-edit.component.ts:124-126 | Appends `removeItem(id)` with the id unchanged. |
| `TagEdit.TagEditComponent.Selected` | src/app/features/tag/tag-edit/tag-edit.component.ts:128-134 | Appends what the no-duplicate `_add` emits for the picked id. Clears the input element when there is one, and sets the control to null. |
| `TagEdit.TagEditComponent.TriggerCtrlEnterSubmit` | src/app/features/tag/tag-edit/tag-edit.component.ts:136-147 | The separator keys become [Enter] when the key is one Cyrillic letter (А–я, ё, Ё), and [Enter, comma] otherwise. Comma is a separator exactly when the key is not Cyrillic. `ctrlEnterSubmit` is emitted exactly for Ctrl+Enter. |
| `TagEdit.TagEditComponent.Attach` | src/app/features/tag/tag-edit/tag-edit.component.ts:153-158 | Appends exactly what `AttachEvents` gives for the id. |
| `TagEdit.TagEditComponent.AddByTitle` | src/app/features/tag/tag-edit/tag-edit.component.ts:160-167 | Appends exactly what `AddByTitleEvents` gives for the text. |
| `OpenProjectCfg.CleanupAsWritten` | src/app/features/issue/providers/open-project/open-project-view-components/openproject-cfg/open-project-additional-cfg.component.ts:102-106 | The cleanup as written keeps the keys found in the template or on `Object.prototype`, each with its value. |
| `OpenProjectCfg.CleanupAsWrittenKeepsInheritedNames` | src/app/features/issue/providers/open-project/open-project-view-components/openproject-cfg/open-project-additional-cfg.component.ts:103 | A `toString` transition key survives the cleanup as written even though the template lacks it, so the cleaned keys are not within the template. |
| `OpenProjectCfg.StripUnknownKeys` | src/app/features/issue/providers/open-project/open-project-view-components/openproject-cfg/open-project-additional-cfg.component.ts:102-106 | The deletion loop with an own-key test (the corrected cleanup): it leaves exactly the keys of the transition config that are also own keys of the template, each with its original value. |
| `OpenProjectCfg.Normalise` | src/app/features/issue/providers/open-project/open-project-view-components/openproject-cfg/open-project-additional-cfg.component.ts:98-111 | A missing or falsy transition config becomes the default one. A present one keeps only the template's own keys, with their values, as the corrected cleanup does. A non-array `availableTransitions` becomes the default, and an array is kept. All other fields are copied. |
| `OpenProjectCfg.NormaliseIdempotent` | src/app/features/issue/providers/open-project/open-project-view-components/openproject-cfg/open-project-additional-cfg.component.ts:90-111 | Normalising a normalised config gives it back, so a normalised config that the setter does not skip is stored unchanged. |
| `OpenProjectCfg.TransitionOptsOf` | src/app/features/issue/providers/open-project/open-project-view-components/openproject-cfg/open-project-additional-cfg.component.ts:115-121 | Exactly one row per key of the transition config; each row's `val` is that key's value. |
| `OpenProjectCfg.OpenProjectAdditionalCfgComponent.constructor` | src/app/features/issue/providers/open-project/open-project-view-components/openproject-cfg/open-project-additional-cfg.component.ts:71-83 | Starts with the given defaults, no stored config, no transition rows, no emissions, and a null search control. |
| `OpenProjectCfg.OpenProjectAdditionalCfgComponent.SetCfg` | src/app/features/issue/providers/open-project/open-project-view-components/openproject-cfg/open-project-additional-cfg.component.ts:90-122 | A config equal to the stored one changes neither `_cfg` nor the rows. Any other config is stored as `Normalise` gives it (with the corrected own-key cleanup), with exactly one row per normalised transition key. Nothing is emitted. |
| `OpenProjectCfg.OpenProjectAdditionalCfgComponent.GetTransition` | src/app/features/issue/providers/open-project/open-project-view-components/openproject-cfg/open-project-additional-cfg.component.ts:132-134 | Throws exactly while no config is stored. Otherwise returns the stored option for the key, or undefined when the key is missing. |
| `OpenProjectCfg.OpenProjectAdditionalCfgComponent.ShowSetProgressOption` | src/app/features/issue/providers/open-project/open-project-view-components/openproject-cfg/open-project-additional-cfg.component.ts:198-205 | Throws exactly when there is no stored config, or the key's option is missing or null. Otherwise true exactly for `DONE` whose option is neither `DO_NOT` nor `ALWAYS_ASK`. |
| `OpenProjectCfg.OpenProjectAdditionalCfgComponent.PartialModelChange` | src/app/features/issue/providers/open-project/open-project-view-components/openproject-cfg/open-project-additional-cfg.component.ts:152-162 | Overwrites exactly the fields of `p`, keeps every other field, and emits the updated config once. With no config stored it throws for a non-empty `p` and emits undefined for an empty one. |
| `OpenProjectCfg.OpenProjectAdditionalCfgComponent.SetTransition` | src/app/features/issue/providers/open-project/open-project-view-components/openproject-cfg/open-project-additional-cfg.component.ts:136-150 | Returns `value`; afterwards the key's option is `value` and every other option is unchanged. `isSetProgressOnTaskDone` is set to false, with its own emission, exactly for `DONE` with `ALWAYS_ASK` or `DO_NOT`. The progress option for `DONE` is then hidden exactly in that case. The transition rows are untouched. |
| `OpenProjectCfg.OpenProjectAdditionalCfgComponent.UpdateTransitionOptions` | src/app/features/issue/providers/open-project/open-project-view-components/openproject-cfg/open-project-additional-cfg.component.ts:164-170 | A falsy or string control value resets the control to "" and requests nothing. Any other value throws unless it carries a truthy `issueData.id`, and otherwise requests transitions for exactly that id. Only the reset changes the control. Config and emissions are unchanged in every case. |

## Left out

- Angular plumbing is not modelled: decorators, dependency injection, signals, view children, templates, animations and change detection. Signals and view children are plain fields. Event emitters are one appended log per component.
- The debounced issue search (`filteredIssueSuggestions$`, `isLoading$`) is left out. It is timing and asynchronous streams; its `length > 1` guard is not modelled.
- The API branch of `updateTransitionOptions` is left out after the `assertTruthy(searchResultItem.issueData.id)` check at line 170: the OpenProject API call, the snackbar, and writing the loaded transitions through `partialModelChange`. These are network and UI side effects. The model reports for which id transitions would be requested. It also models the throw at line 170 for a value without a truthy `issueData.id`; the error's text is not modelled, because `assertTruthy` is not part of this model.
- `DEFAULT_OPEN_PROJECT_CFG` (open-project.const.ts) is not part of this model. Its transition template and default transitions are a constructor parameter; every property holds for any template.
- The `JSON.stringify` comparison in the setter is modelled as structural map equality. Key order and serialisation quirks are not modelled: dropped `undefined` fields and `NaN`/`null` conflation.
- `OpenProjectCfg.OpenProjectAdditionalCfgComponent.SetCfg` and `OpenProjectCfg.Normalise` implement the corrected own-key cleanup of the Findings row, not the cleanup as written. A transition key such as `toString` that the template lacks is dropped, while the source keeps it and gives it a row. The as-written behaviour is stated only by `OpenProjectCfg.CleanupAsWritten` and `OpenProjectCfg.CleanupAsWrittenKeepsInheritedNames`.
- `OpenProjectCfg.OpenProjectAdditionalCfgComponent.SetCfg` also uses value semantics.
  - In the source, the setter's shallow copy shares the caller's `transitionConfig` object, so the key deletion also removes keys from the caller's own object.
  - A missing `transitionConfig` is replaced by the shared default object itself.
  - The model copies; it does not capture that aliasing.
- The `modelChange` log records a snapshot per emission. The source emits the same `_cfg` object both times, so a subscriber that keeps the first reference later sees the second update too.
- Insertion order of object keys is not modelled, so the order of the `transitionConfigOpts` rows is left open.
- Property lookups through the prototype chain in `getTransition` (for example `transitionConfig["toString"]`) are not modelled; only own keys are looked up.
- Values outside the declared TypeScript types are excluded by `requires`. Examples: a truthy non-object `transitionConfig`, or a partial change whose `transitionConfig` is not an object or whose `availableTransitions` is not an array.
- JSON numbers are integers; floating point is not modelled.
- `JsText.Lower`: does not model Unicode `toLowerCase`. Only ASCII capitals are lowercased, which also keeps lengths equal.
- `displayThumbWith`, `displayIssueWith` and `trackByIssueId` are trivial formatting and accessors, and are not modelled.
- The host's reaction to `addItem` is not part of these components. The no-duplicate lemmas assume the host appends the emitted id.
- `ngOnInit`, `ngOnDestroy` and the `cfg` getter only pass fields through. The getter is the field `stored`.

## Findings

| source | as written | input that shows it | evidently intended | confidence | as-written member | corrected member |
|---|---|---|---|---|---|---|
| src/app/features/issue/providers/open-project/open-project-view-components/openproject-cfg/open-project-additional-cfg.component.ts:103 | The cleanup keeps a key when `key in DEFAULT_OPEN_PROJECT_CFG.transitionConfig`, and `in` also sees the names the template inherits from `Object.prototype`. | A stored transition config `{ DONE: 'DO_NOT', toString: 'x' }` keeps `toString`, which then gets its own row in `transitionConfigOpts`. | Keep only the template's own keys. | not executed; medium | `OpenProjectCfg.CleanupAsWrittenKeepsInheritedNames` | `OpenProjectCfg.StripUnknownKeys` |
