# Liferay demo site initializer: layout import

This project models the layout-import core of `DemoSiteInitializer`, Liferay's
"Demo" site initializer. When it initializes a site, the initializer reads a
bundled manifest, `/layouts/layouts.json`. For each manifest entry it then
reads `<path>/page.json` and dispatches on the lower-cased page type:

- a **content page** is created as a content layout. The initializer fetches
  its draft and imports the `page-definition.json` page elements into the
  draft's structure. When the page definition has settings, it reconciles
  the draft's type settings, theme, colour scheme, CSS and master page. Finally it copies the draft onto the live
  layout and approves the live layout, then the draft;
- **every other page** is created as a public portlet layout.

The host platform is abstract. `Platform.LayoutServices` is a class that
appends every call the initializer makes on the layout services, reads
included, to an ordered log (`log`), and allocates plids.
The platform's answers to lookups are function values in a `Registry`:

- the themes of a company;
- the page-template entry of a key;
- the draft of a layout;
- the main item of a structure;
- the company of a group.

JSON descriptors are already parsed into datatypes whose absent keys are
`None` (`Descriptors`).

The model is in two layers:

- `PipelineSpec` holds pure functions from the descriptors and the registry
  to the calls issued (`ImportRun`, `SettingsEffect`, `ContentRun`,
  `EntryRun`, `LayoutsRun`), together with the lemmas about those call
  sequences.
- `DemoSite.DemoSiteInitializer` holds the imperative methods. They follow
  the source's loops and statement order and are proved to leave in the log
  exactly the calls of the matching spec function.

The type-settings bag is the mutable `TypeSettings.PropertyBag`, cleared and
then written key by key. Its algebra (`WithoutThemeKeys`, `ReconciledBag`)
sits beside it. `Themes.GetThemeId` is the first-exact-match theme lookup.
`Text` has the two platform string rules the initializer depends on:

- `Validator.isNull`: absent, blank, or the word `null` with spaces anywhere;
- ASCII `StringUtil.toLowerCase`.

## Model

Source paths are relative to the repository root. The core file is
`modules/liferay-demo-site-initializer/src/main/java/com/liferay/demo/site/initializer/DemoSiteInitializer.java`.

| member | source | states |
|---|---|---|
| DemoSite.DemoSiteInitializer.Initialize | modules/liferay-demo-site-initializer/src/main/java/com/liferay/demo/site/initializer/DemoSiteInitializer.java:93-106 | sets the service context to the caller and site, then leaves in the log exactly the calls of the whole manifest walk; it reports an error, wrapped as one initialization exception, exactly when the walk fails; the plid counter advances by exactly the number of layouts created, which on success is the number of manifest entries |
| DemoSite.DemoSiteInitializer.AddLayouts | modules/liferay-demo-site-initializer/src/main/java/com/liferay/demo/site/initializer/DemoSiteInitializer.java:128-158 | a missing or malformed manifest fails before any call; otherwise the log gains exactly `AddLayoutsRun`'s calls and the result is its failure; the plid counter advances by exactly the number of layouts created, which on success is the number of manifest entries |
| DemoSite.DemoSiteInitializer.AddEntries | modules/liferay-demo-site-initializer/src/main/java/com/liferay/demo/site/initializer/DemoSiteInitializer.java:132-157 | the index loop over the manifest: the log gains exactly the calls of `LayoutsRun` over the entries, in order, with entry i given plid `first + i`, and the walk stops at the first failing entry without undoing anything; the plid counter advances by exactly the number of layouts created, `|entries|` on success |
| DemoSite.DemoSiteInitializer.AddEntry | modules/liferay-demo-site-initializer/src/main/java/com/liferay/demo/site/initializer/DemoSiteInitializer.java:133-156 | one entry: reads `page.json` and lower-cases its type; a content type reads `page-definition.json` and takes the content path, and any other type takes the widget path; the log gains exactly `EntryRun`'s calls, and the plid counter advances by the number of layouts the entry created: once on success |
| DemoSite.DemoSiteInitializer.AddWidgetLayout | modules/liferay-demo-site-initializer/src/main/java/com/liferay/demo/site/initializer/DemoSiteInitializer.java:163-175 | creates one layout, public and of type portlet, named after the descriptor, under the default parent, whatever the descriptor's private flag says |
| DemoSite.DemoSiteInitializer.AddContentLayout | modules/liferay-demo-site-initializer/src/main/java/com/liferay/demo/site/initializer/DemoSiteInitializer.java:177-217 | the log gains exactly `ContentRun`'s calls: create the layout (descriptor's private flag, lower-cased type), fetch its draft, then the draft-to-live steps; on success the returned live record carries the settled draft's configuration |
| DemoSite.DemoSiteInitializer.PublishDraft | modules/liferay-demo-site-initializer/src/main/java/com/liferay/demo/site/initializer/DemoSiteInitializer.java:196-216 | imports into the draft, reconciles settings only when present, copies the draft onto the live layout, then approves the live plid and the draft plid; an import failure stops it before any later call |
| DemoSite.DemoSiteInitializer.UpdateLayoutTypeSettings | modules/liferay-demo-site-initializer/src/main/java/com/liferay/demo/site/initializer/DemoSiteInitializer.java:219-287 | the returned record and the calls issued are those of `SettingsEffect`: persist phase, then look-and-feel phase, then master-page phase |
| DemoSite.DemoSiteInitializer.PersistThemeSettings | modules/liferay-demo-site-initializer/src/main/java/com/liferay/demo/site/initializer/DemoSiteInitializer.java:223-249 | clears every `lfr-theme:` key of the bag, then puts the theme settings key by key; it persists the reconciled bag with one `updateLayout` only when theme settings are given |
| DemoSite.DemoSiteInitializer.ApplyLookAndFeel | modules/liferay-demo-site-initializer/src/main/java/com/liferay/demo/site/initializer/DemoSiteInitializer.java:251-266 | keeps the current theme id for a null theme name and otherwise resolves it by name; it falls back to the current colour scheme and CSS, and always issues one look-and-feel update |
| DemoSite.DemoSiteInitializer.LinkMasterPage | modules/liferay-demo-site-initializer/src/main/java/com/liferay/demo/site/initializer/DemoSiteInitializer.java:268-284 | updates the master layout plid only when a master page is given and its key resolves to a page-template entry; otherwise no call and no error |
| DemoSite.DemoSiteInitializer.ImportPageDefinition | modules/liferay-demo-site-initializer/src/main/java/com/liferay/demo/site/initializer/DemoSiteInitializer.java:314-347 | the guarded index loop: the log gains exactly `ImportRun`'s calls, and a "Root" element without children fails right after the structure fetch |
| Descriptors.ReadManifest | modules/liferay-demo-site-initializer/src/main/java/com/liferay/demo/site/initializer/DemoSiteInitializer.java:129-130 | the manifest is read from `/layouts/layouts.json`; a missing resource is a not-found error, and the result is the entries exactly when a manifest document is there |
| Descriptors.ReadPage | modules/liferay-demo-site-initializer/src/main/java/com/liferay/demo/site/initializer/DemoSiteInitializer.java:137-138 | reading a page descriptor succeeds exactly when a page document is at the path, and a missing one is a not-found error for that path |
| Descriptors.ReadPageDefinition | modules/liferay-demo-site-initializer/src/main/java/com/liferay/demo/site/initializer/DemoSiteInitializer.java:146-152 | reading a page definition succeeds exactly when a page-definition document is at the path, and a missing one is a not-found error for that path |
| Text.NonSpaceEmpty | modules/liferay-demo-site-initializer/src/main/java/com/liferay/demo/site/initializer/DemoSiteInitializer.java:253-257 | dropping the spaces from a text leaves nothing exactly when the text is all spaces |
| Text.IsNullText | modules/liferay-demo-site-initializer/src/main/java/com/liferay/demo/site/initializer/DemoSiteInitializer.java:253-257 | the platform's null test: null exactly when the value is absent, made only of spaces (the empty text included), or the lower-case word `null` with spaces anywhere in it |
| Text.SpacedNullIsNull | modules/liferay-demo-site-initializer/src/main/java/com/liferay/demo/site/initializer/DemoSiteInitializer.java:253-257 | a theme name such as " n ull " is null text, so the current theme id is kept |
| Text.OnlyLowerNullIsNull | modules/liferay-demo-site-initializer/src/main/java/com/liferay/demo/site/initializer/DemoSiteInitializer.java:253-257 | "nul" and "NULL" are not null text: only the whole lower-case word counts |
| Text.BlankIsNull | modules/liferay-demo-site-initializer/src/main/java/com/liferay/demo/site/initializer/DemoSiteInitializer.java:253-257 | a theme name made only of spaces, including the empty one, is null text, so the current theme id is kept |
| Text.RootIsNotNull | modules/liferay-demo-site-initializer/src/main/java/com/liferay/demo/site/initializer/DemoSiteInitializer.java:325-329 | "Root" is not null text, so the importer's guard admits exactly the type "Root" |
| Text.ToLower | modules/liferay-demo-site-initializer/src/main/java/com/liferay/demo/site/initializer/DemoSiteInitializer.java:140-141 | lower-casing keeps the length and lower-cases each ASCII capital, one character at a time |
| Text.ContentInAnyCase | modules/liferay-demo-site-initializer/src/main/java/com/liferay/demo/site/initializer/DemoSiteInitializer.java:140-145 | a declared type lower-cases to "content" exactly when it has seven characters and each is the letter of "content" either in lower case or in capitals |
| TypeSettings.WithoutThemeKeys | modules/liferay-demo-site-initializer/src/main/java/com/liferay/demo/site/initializer/DemoSiteInitializer.java:229-236 | after the removal, the keys left are exactly the bag's keys that do not start with `lfr-theme:`, with their values unchanged |
| TypeSettings.ReconciledBag | modules/liferay-demo-site-initializer/src/main/java/com/liferay/demo/site/initializer/DemoSiteInitializer.java:229-242 | the reconciled bag holds exactly the theme-settings keys plus the bag's non-theme keys; theme-settings values win, and the other non-theme values are unchanged |
| TypeSettings.ReconcileIdempotent | modules/liferay-demo-site-initializer/src/main/java/com/liferay/demo/site/initializer/DemoSiteInitializer.java:229-242 | clear-then-merge twice with the same theme settings gives the bag of doing it once |
| TypeSettings.ThemeKeysReplaced | modules/liferay-demo-site-initializer/src/main/java/com/liferay/demo/site/initializer/DemoSiteInitializer.java:229-242 | after reconciliation the `lfr-theme:` keys are exactly those of the supplied theme settings, and none without them |
| TypeSettings.OverlayOneMore | modules/liferay-demo-site-initializer/src/main/java/com/liferay/demo/site/initializer/DemoSiteInitializer.java:239-242 | each `put` of the loop extends the overlay already written by exactly one theme-settings key |
| TypeSettings.PropertyBag.RemoveThemeKeys | modules/liferay-demo-site-initializer/src/main/java/com/liferay/demo/site/initializer/DemoSiteInitializer.java:229-236 | removes in place every entry whose key starts with `lfr-theme:` and nothing else |
| TypeSettings.PropertyBag.Put | modules/liferay-demo-site-initializer/src/main/java/com/liferay/demo/site/initializer/DemoSiteInitializer.java:240-241 | writes one entry in place, replacing any earlier value under that key |
| Themes.MatchingThemes | modules/liferay-demo-site-initializer/src/main/java/com/liferay/demo/site/initializer/DemoSiteInitializer.java:290-292 | the filtered list holds exactly the registry's themes with that exact name; it is empty exactly when none matches, and its head is the first match in registry order |
| Themes.GetThemeId | modules/liferay-demo-site-initializer/src/main/java/com/liferay/demo/site/initializer/DemoSiteInitializer.java:289-301 | null exactly when no theme has that exact name; otherwise the id of the first theme, in registry order, with that name |
| Platform.NewLayout | modules/liferay-demo-site-initializer/src/main/java/com/liferay/demo/site/initializer/DemoSiteInitializer.java:184-192 | the created record carries the plid, user, site, private flag, name and type it was created with |
| Platform.CopiedLayout | modules/liferay-demo-site-initializer/src/main/java/com/liferay/demo/site/initializer/DemoSiteInitializer.java:206 | the live record keeps its identity and takes the draft's type settings, theme, colour scheme, CSS and master layout |
| Platform.LayoutServices.AddLayout | modules/liferay-demo-site-initializer/src/main/java/com/liferay/demo/site/initializer/DemoSiteInitializer.java:166-174 | appends one `addLayout` call with the given user, site, private flag, parent, name and type, and returns a fresh record under the next plid |
| Platform.LayoutServices.FetchDraftLayout | modules/liferay-demo-site-initializer/src/main/java/com/liferay/demo/site/initializer/DemoSiteInitializer.java:194 | appends one draft fetch for the layout and returns the platform's draft of it |
| Platform.LayoutServices.FetchLayoutPageTemplateStructure | modules/liferay-demo-site-initializer/src/main/java/com/liferay/demo/site/initializer/DemoSiteInitializer.java:331-337 | appends one structure fetch for the draft's site and plid and returns its structure with the platform's main item |
| Platform.LayoutServices.ImportPageElement | modules/liferay-demo-site-initializer/src/main/java/com/liferay/demo/site/initializer/DemoSiteInitializer.java:343-345 | appends one element import naming the draft, the parent item, the element and its position |
| Platform.LayoutServices.UpdateLayout | modules/liferay-demo-site-initializer/src/main/java/com/liferay/demo/site/initializer/DemoSiteInitializer.java:244-248 | appends one `updateLayout` with the layout's site, private flag, layout id and bag, and returns the record with that bag |
| Platform.LayoutServices.UpdateLookAndFeel | modules/liferay-demo-site-initializer/src/main/java/com/liferay/demo/site/initializer/DemoSiteInitializer.java:264-266 | appends one look-and-feel update and returns the record with that theme, colour scheme and CSS |
| Platform.LayoutServices.UpdateMasterLayoutPlid | modules/liferay-demo-site-initializer/src/main/java/com/liferay/demo/site/initializer/DemoSiteInitializer.java:279-282 | appends one master-plid update and returns the record with that master plid |
| Platform.LayoutServices.CopyLayout | modules/liferay-demo-site-initializer/src/main/java/com/liferay/demo/site/initializer/DemoSiteInitializer.java:206 | appends one copy from the draft plid to the live plid and returns the live record with the draft's configuration |
| Platform.LayoutServices.UpdateStatus | modules/liferay-demo-site-initializer/src/main/java/com/liferay/demo/site/initializer/DemoSiteInitializer.java:208-214 | appends one status update for that user, plid and status |
| TypeSettings.PropertyBag.constructor | modules/liferay-demo-site-initializer/src/main/java/com/liferay/demo/site/initializer/DemoSiteInitializer.java:223-224 | the bag starts as the layout's type settings |
| PipelineSpec.OfKindConcat | modules/liferay-demo-site-initializer/src/main/java/com/liferay/demo/site/initializer/DemoSiteInitializer.java:184-216 | selecting the calls of one kind distributes over concatenation of traces |
| PipelineSpec.OfKindAbsent | modules/liferay-demo-site-initializer/src/main/java/com/liferay/demo/site/initializer/DemoSiteInitializer.java:184-216 | a trace with no call of a kind selects nothing for that kind |
| PipelineSpec.ElementCallsAt | modules/liferay-demo-site-initializer/src/main/java/com/liferay/demo/site/initializer/DemoSiteInitializer.java:342-346 | one import call per child; the j-th call passes child j at position `from + j` under the given parent item |
| PipelineSpec.ElementCallsSnoc | modules/liferay-demo-site-initializer/src/main/java/com/liferay/demo/site/initializer/DemoSiteInitializer.java:342-346 | one more loop iteration appends exactly the call for the next child at the next position |
| PipelineSpec.ElementCallsKinds | modules/liferay-demo-site-initializer/src/main/java/com/liferay/demo/site/initializer/DemoSiteInitializer.java:342-346 | the import loop issues element imports only |
| PipelineSpec.ImportRunSkips | modules/liferay-demo-site-initializer/src/main/java/com/liferay/demo/site/initializer/DemoSiteInitializer.java:318-329 | without a page element of type exactly "Root" nothing happens: no structure fetch, no import, no error |
| PipelineSpec.ImportRunMissing | modules/liferay-demo-site-initializer/src/main/java/com/liferay/demo/site/initializer/DemoSiteInitializer.java:331-342 | a "Root" element without a children array fails right after the structure fetch |
| PipelineSpec.ImportRunShape | modules/liferay-demo-site-initializer/src/main/java/com/liferay/demo/site/initializer/DemoSiteInitializer.java:331-346 | for a "Root" element with n children: one structure fetch, then exactly n import calls, the j-th with child j at position j under the structure's main item |
| PipelineSpec.ImportRunKinds | modules/liferay-demo-site-initializer/src/main/java/com/liferay/demo/site/initializer/DemoSiteInitializer.java:314-347 | the importer issues only structure fetches and element imports |
| PipelineSpec.SettingsEffectLayout | modules/liferay-demo-site-initializer/src/main/java/com/liferay/demo/site/initializer/DemoSiteInitializer.java:219-287 | the settled record keeps its identity; it gets the reconciled bag only with theme settings; its theme is current for a null name, else the first exact match or null; colour scheme and CSS fall back to current; the master plid is updated only when the key resolves |
| PipelineSpec.SettingsEffectCalls | modules/liferay-demo-site-initializer/src/main/java/com/liferay/demo/site/initializer/DemoSiteInitializer.java:238-284 | the settings calls in order: one `updateLayout` with the reconciled bag only when theme settings are given, exactly one look-and-feel update, and one master-plid update only when the key resolves |
| PipelineSpec.SettingsEffectKinds | modules/liferay-demo-site-initializer/src/main/java/com/liferay/demo/site/initializer/DemoSiteInitializer.java:219-287 | the settings step issues no call besides those three updates |
| PipelineSpec.SettingsIdempotent | modules/liferay-demo-site-initializer/src/main/java/com/liferay/demo/site/initializer/DemoSiteInitializer.java:219-287 | applying the same settings to the settled record leaves it unchanged |
| PipelineSpec.DraftToLiveCreatesNothing | modules/liferay-demo-site-initializer/src/main/java/com/liferay/demo/site/initializer/DemoSiteInitializer.java:194-216 | from the draft fetch onward, no layout is created |
| PipelineSpec.ContentRunShape | modules/liferay-demo-site-initializer/src/main/java/com/liferay/demo/site/initializer/DemoSiteInitializer.java:184-216 | the whole trace of a content layout whose import succeeds: `addLayout` with the private flag, `fetchDraftLayout`, the import calls, the settings calls only with settings, `copyLayout(draft, live)`, approve live, approve draft |
| PipelineSpec.ContentRunImportFailure | modules/liferay-demo-site-initializer/src/main/java/com/liferay/demo/site/initializer/DemoSiteInitializer.java:194-196 | an import failure leaves exactly three calls: create the layout, fetch the draft, fetch its structure; there is no settings call, copy or approval |
| PipelineSpec.ContentRunCreatesOnce | modules/liferay-demo-site-initializer/src/main/java/com/liferay/demo/site/initializer/DemoSiteInitializer.java:184-192 | a content layout, successful or not, is created exactly once and first, with the descriptor's private flag and lower-cased type |
| PipelineSpec.EntryRunCreatesOne | modules/liferay-demo-site-initializer/src/main/java/com/liferay/demo/site/initializer/DemoSiteInitializer.java:135-156 | a successful entry read its page descriptor (and, for content, its page definition) and created exactly one layout: content with the descriptor's private flag, or public portlet |
| PipelineSpec.EntryRunDispatch | modules/liferay-demo-site-initializer/src/main/java/com/liferay/demo/site/initializer/DemoSiteInitializer.java:140-156 | a non-content type takes the widget path without reading a page definition; a content type fails before any call with the page definition's read error when it is missing or not a page-definition document, and takes the content path exactly when it is readable |
| PipelineSpec.EntryRunCreationCount | modules/liferay-demo-site-initializer/src/main/java/com/liferay/demo/site/initializer/DemoSiteInitializer.java:133-156 | an entry creates at most one layout, and a successful entry exactly one |
| PipelineSpec.LayoutsRunCreationCount | modules/liferay-demo-site-initializer/src/main/java/com/liferay/demo/site/initializer/DemoSiteInitializer.java:132-157 | while no entry has failed, the walk of i + 1 entries has created i layouts plus those of entry i |
| PipelineSpec.LayoutsRunSnoc | modules/liferay-demo-site-initializer/src/main/java/com/liferay/demo/site/initializer/DemoSiteInitializer.java:132-157 | while no entry has failed, the walk of i + 1 entries is the walk of i entries followed by entry i at plid `first + i` |
| PipelineSpec.LayoutsRunExtends | modules/liferay-demo-site-initializer/src/main/java/com/liferay/demo/site/initializer/DemoSiteInitializer.java:132-157 | a log holding the walk of i entries, extended by entry i's calls, holds the walk of i + 1 entries |
| PipelineSpec.WalkPrefix | modules/liferay-demo-site-initializer/src/main/java/com/liferay/demo/site/initializer/DemoSiteInitializer.java:132-157 | walking a prefix of any list issues a prefix of the calls of walking all of it |
| PipelineSpec.LayoutsRunPrefix | modules/liferay-demo-site-initializer/src/main/java/com/liferay/demo/site/initializer/DemoSiteInitializer.java:132-157 | layouts created for earlier manifest entries stay created whatever later entries do: there is no rollback |
| PipelineSpec.WalkStopsAtFailure | modules/liferay-demo-site-initializer/src/main/java/com/liferay/demo/site/initializer/DemoSiteInitializer.java:132-157 | once a prefix of a walk has failed, the rest of the list adds nothing |
| PipelineSpec.LayoutsRunStops | modules/liferay-demo-site-initializer/src/main/java/com/liferay/demo/site/initializer/DemoSiteInitializer.java:132-157 | the first failing manifest entry ends the walk, and its calls and those of earlier entries are all there is |
| PipelineSpec.WalkCreatesInOrder | modules/liferay-demo-site-initializer/src/main/java/com/liferay/demo/site/initializer/DemoSiteInitializer.java:132-157 | when every successful step creates exactly one layout, a successful walk creates one per entry, in entry order |
| PipelineSpec.LayoutsCreatedInOrder | modules/liferay-demo-site-initializer/src/main/java/com/liferay/demo/site/initializer/DemoSiteInitializer.java:132-157 | a successful manifest walk creates exactly one layout per entry, in manifest order; the i-th is a content layout with the descriptor's private flag, or a public portlet layout |

## Left out

- `_addFragmentEntries` (bundle zip, temporary file, fragment importer) is not part of this model. `Initialize` goes straight to the layouts, so a fragment-import failure is not among its errors.
- `_read` and JSON parsing are file I/O and parsing. Bundled resources are a map from path to an already-parsed descriptor. A missing resource is `ResourceNotFound`; a document of the wrong kind is `MalformedDescriptor`. Byte-level JSON syntax errors and JSON values of an unexpected kind inside a descriptor are not modelled; such a value reads as an absent key.
- `_createServiceContext` looks up the principal user, locale and time zone. The service context is reduced to the user id and the scope group, and `Initialize` takes the user id as a parameter.
- The service internals are not modelled: `addLayout`, `fetchDraftLayout`, the page-template structure, `importPageElement`, `copyLayout`, `updateLayout`, `updateLookAndFeel`, `updateMasterLayoutPlid`, `updateStatus`, and the theme and page-template registries. Each is a recorded call with a minimal effect on the returned record, or a lookup in the `Registry`.
- Plid and layout-id allocation: a new layout's plid is the host's next counter value and its layout id equals its plid.
- `Platform.LayoutServices.FetchDraftLayout` and `FetchLayoutPageTemplateStructure` always return a record. The source would throw a null-pointer exception if the platform returned none.
- Collaborator exceptions: no service call fails in the model. The failures modelled are a missing or malformed resource, and a "Root" page element without a `pageElements` array, which the source dereferences as null.
- `UnicodeProperties.toString()` is not modelled. The bag passed to `updateLayout` is the map itself, not its serialized text. Key trimming and null values inside `UnicodeProperties` are not modelled.
- The in-memory type settings of the draft record are cleared of theme keys even when no theme settings are given, and that change is never persisted. The model's record keeps the persisted bag in that case.
- `Text.ToLower` lower-cases ASCII capitals only; locale-specific and non-ASCII case mapping is not modelled.
- Iteration order of the theme-settings keys: the model writes them in an unspecified order, which cannot change the resulting bag.
- The `layout` local of `_addLayouts`, OSGi wiring (`activate`, references), `getKey`, `getName`, `getThumbnailSrc`, `isActive` and logging.
