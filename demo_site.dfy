/**
 * The demo site initializer: it walks the bundled layout manifest and
 * replays each descriptor as calls on the host's layout services.
 */
module DemoSite {
  import opened Wrappers
  import opened Text
  import opened TypeSettings
  import opened Themes
  import opened Platform
  import opened Descriptors
  import opened PipelineSpec

  /** The single error the initializer reports, whatever its cause. */
  datatype InitializationError = InitializationException(cause: Error)

  class DemoSiteInitializer {
    const host: LayoutServices
    const resources: Resources
    var serviceContext: ServiceContext

    constructor (host: LayoutServices, resources: Resources, serviceContext: ServiceContext)
      ensures this.host == host && this.resources == resources && this.serviceContext == serviceContext
    {
      this.host := host;
      this.resources := resources;
      this.serviceContext := serviceContext;
    }

    /**
     * Replays the manifest for the site `groupId` on behalf of `userId`.
     * Every failure is reported as one initialization error; nothing issued
     * before it is undone.
     */
    method Initialize(groupId: int, userId: int) returns (error: Option<InitializationError>)
      modifies this`serviceContext, host`log, host`nextPlid
      ensures serviceContext == ServiceContext(userId, groupId)
      ensures host.nextPlid
        == old(host.nextPlid) + |OfKind(AddLayoutsRun(resources, serviceContext, host.env, old(host.nextPlid)).calls, AddLayoutKind)|
      ensures error.None? ==> ReadManifest(resources).Ok? && host.nextPlid == old(host.nextPlid) + |ReadManifest(resources).value|
      ensures host.log == old(host.log) + AddLayoutsRun(resources, serviceContext, host.env, old(host.nextPlid)).calls
      ensures error.Some? <==> AddLayoutsRun(resources, serviceContext, host.env, old(host.nextPlid)).failure.Some?
      ensures error.Some? ==>
        error.value == InitializationException(AddLayoutsRun(resources, serviceContext, host.env, old(host.nextPlid)).failure.value)
    {
      serviceContext := ServiceContext(userId, groupId);
      var failure := AddLayouts();
      error := match failure
        case Some(cause) => Some(InitializationException(cause))
        case None => None;
    }

    /** Walks the manifest in order, sending content pages to the content path and all others to the widget path. */
    method AddLayouts() returns (failure: Option<Error>)
      modifies host`log, host`nextPlid
      ensures host.nextPlid
        == old(host.nextPlid) + |OfKind(AddLayoutsRun(resources, serviceContext, host.env, old(host.nextPlid)).calls, AddLayoutKind)|
      ensures failure.None? ==> ReadManifest(resources).Ok? && host.nextPlid == old(host.nextPlid) + |ReadManifest(resources).value|
      ensures host.log == old(host.log) + AddLayoutsRun(resources, serviceContext, host.env, old(host.nextPlid)).calls
      ensures failure == AddLayoutsRun(resources, serviceContext, host.env, old(host.nextPlid)).failure
    {
      var manifest := ReadManifest(resources);
      if manifest.Err? {
        return Some(manifest.error);
      }
      failure := AddEntries(manifest.value);
    }

    /** The manifest's entries in order; the first failing entry ends the walk. */
    method AddEntries(entries: seq<ManifestEntry>) returns (failure: Option<Error>)
      modifies host`log, host`nextPlid
      ensures host.nextPlid
        == old(host.nextPlid) + |OfKind(LayoutsRun(entries, resources, serviceContext, host.env, old(host.nextPlid)).calls, AddLayoutKind)|
      ensures failure.None? ==> host.nextPlid == old(host.nextPlid) + |entries|
      ensures host.log == old(host.log) + LayoutsRun(entries, resources, serviceContext, host.env, old(host.nextPlid)).calls
      ensures failure == LayoutsRun(entries, resources, serviceContext, host.env, old(host.nextPlid)).failure
    {
      ghost var firstPlid := host.nextPlid;
      var i := 0;
      while i < |entries|
        invariant 0 <= i <= |entries|
        invariant host.nextPlid == firstPlid + i
        invariant LayoutsRun(entries[..i], resources, serviceContext, host.env, firstPlid).failure.None?
        invariant host.log == old(host.log) + LayoutsRun(entries[..i], resources, serviceContext, host.env, firstPlid).calls
      {
        ghost var before := host.log;
        var stepFailure := AddEntry(entries[i]);
        LayoutsRunExtends(entries, i, resources, serviceContext, host.env, firstPlid, old(host.log), before, host.log);
        if stepFailure.Some? {
          LayoutsRunCreationCount(entries, i, resources, serviceContext, host.env, firstPlid);
          LayoutsRunStops(entries, i + 1, resources, serviceContext, host.env, firstPlid);
          return stepFailure;
        }
        i := i + 1;
      }
      assert entries[..i] == entries;
      LayoutsCreatedInOrder(entries, resources, serviceContext, host.env, firstPlid);
      failure := None;
    }

    /** One manifest entry: read its page descriptor and dispatch on its lower-cased type. */
    method AddEntry(entry: ManifestEntry) returns (failure: Option<Error>)
      modifies host`log, host`nextPlid
      ensures host.nextPlid
        == old(host.nextPlid) + |OfKind(EntryRun(entry, resources, serviceContext, host.env, old(host.nextPlid)).calls, AddLayoutKind)|
      ensures failure.None? ==> host.nextPlid == old(host.nextPlid) + 1
      ensures host.log == old(host.log) + EntryRun(entry, resources, serviceContext, host.env, old(host.nextPlid)).calls
      ensures failure == EntryRun(entry, resources, serviceContext, host.env, old(host.nextPlid)).failure
    {
      var path := entry.path.GetOr("");
      var pageRead := ReadPage(resources, PagePath(path));
      if pageRead.Err? {
        return Some(pageRead.error);
      }
      var page := pageRead.value;
      var layoutType := ToLower(page.layoutType.GetOr(""));
      if layoutType == TypeContent {
        var definitionRead := ReadPageDefinition(resources, PageDefinitionPath(path));
        if definitionRead.Err? {
          return Some(definitionRead.error);
        }
        ContentRunCreatesOnce(page, definitionRead.value, serviceContext, host.env, host.nextPlid);
        var layout;
        layout, failure := AddContentLayout(page, definitionRead.value);
      } else {
        var layout := AddWidgetLayout(page);
        failure := None;
      }
    }

    /** Creates a public portlet layout named after the descriptor. */
    method AddWidgetLayout(page: Page) returns (layout: Layout)
      modifies host`log, host`nextPlid
      ensures host.nextPlid == old(host.nextPlid) + 1
      ensures layout == NewLayout(host.env, old(host.nextPlid), serviceContext.userId, serviceContext.scopeGroupId,
                                  false, page.name.GetOr(""), TypePortlet)
      ensures host.log == old(host.log) + WidgetRun(page, serviceContext).calls
    {
      var name := page.name.GetOr("");
      layout := host.AddLayout(serviceContext.userId, serviceContext.scopeGroupId, false, DefaultParentLayoutId,
                               name, TypePortlet);
    }

    /**
     * Creates a content layout, imports the page definition into its draft,
     * reconciles the draft's settings, copies the draft onto the live layout
     * and approves both.
     */
    method AddContentLayout(page: Page, definition: PageDefinition) returns (layout: Layout, failure: Option<Error>)
      modifies host`log, host`nextPlid
      ensures host.nextPlid == old(host.nextPlid) + 1
      ensures host.log == old(host.log) + ContentRun(page, definition, serviceContext, host.env, old(host.nextPlid)).calls
      ensures failure == ContentRun(page, definition, serviceContext, host.env, old(host.nextPlid)).failure
      ensures failure.None? ==>
        var draft := host.env.draftOf(old(host.nextPlid));
        layout == CopiedLayout(DraftSettings(draft, definition, host.env).layout,
                               NewLayout(host.env, old(host.nextPlid), serviceContext.userId, serviceContext.scopeGroupId,
                                         page.privateLayout.GetOr(false), page.name.GetOr(""), PageType(page)))
    {
      ghost var log0 := host.log;
      var name := page.name.GetOr("");
      var layoutType := ToLower(page.layoutType.GetOr(""));
      layout := host.AddLayout(serviceContext.userId, serviceContext.scopeGroupId, page.privateLayout.GetOr(false),
                               DefaultParentLayoutId, name, layoutType);
      var draftLayout := host.FetchDraftLayout(layout);
      ghost var start := host.log[|log0|..];
      assert host.log == log0 + start;
      ghost var middle := host.log;
      ghost var rest := DraftToLive(draftLayout, definition, layout, host.env);
      assert ContentRun(page, definition, serviceContext, host.env, layout.plid) == Run(start + rest.calls, rest.failure);
      layout, failure := PublishDraft(draftLayout, definition, layout);
      AppendTwice(log0, start, rest.calls, middle, host.log);
    }

    /**
     * The rest of a content layout, once its draft is fetched: import the
     * page definition into the draft, reconcile the draft's settings, copy
     * the draft onto the live layout and approve the live layout, then the
     * draft.
     */
    method PublishDraft(draft: Layout, definition: PageDefinition, live: Layout) returns (layout: Layout, failure: Option<Error>)
      modifies host`log
      ensures host.log == old(host.log) + DraftToLive(draft, definition, live, host.env).calls
      ensures failure == DraftToLive(draft, definition, live, host.env).failure
      ensures failure.None? ==> layout == CopiedLayout(DraftSettings(draft, definition, host.env).layout, live)
    {
      ghost var log0 := host.log;
      layout := live;
      failure := ImportPageDefinition(draft, definition);
      if failure.Some? {
        return;
      }
      ghost var imported := ImportRun(draft, definition, host.env).calls;
      ghost var settled := DraftSettings(draft, definition, host.env);
      ghost var afterImport := host.log;
      var draftLayout := draft;
      if definition.settings.Some? {
        draftLayout := UpdateLayoutTypeSettings(draftLayout, definition.settings.value);
      }
      assert draftLayout == settled.layout && host.log == afterImport + settled.calls;
      AppendTwice(log0, imported, settled.calls, afterImport, host.log);
      ghost var afterSettings := host.log;
      layout := host.CopyLayout(draftLayout, layout);
      host.UpdateStatus(layout.userId, layout.plid, StatusApproved);
      host.UpdateStatus(layout.userId, draftLayout.plid, StatusApproved);
      ghost var tail := [CopyLayoutCall(settled.layout.plid, layout.plid),
                         UpdateStatusCall(layout.userId, layout.plid, StatusApproved),
                         UpdateStatusCall(layout.userId, settled.layout.plid, StatusApproved)];
      assert host.log == afterSettings + tail;
      assert DraftToLive(draft, definition, live, host.env) == Run(imported + settled.calls + tail, None);
      AppendTwice(log0, imported + settled.calls, tail, afterSettings, host.log);
    }

    /**
     * Clears the theme-owned keys of the layout's type settings, writes the
     * given theme settings and persists them (only when given), applies the
     * look and feel, and links the master page when its key resolves.
     */
    method UpdateLayoutTypeSettings(layout: Layout, settings: Settings) returns (updated: Layout)
      modifies host`log
      ensures updated == SettingsEffect(layout, settings, host.env).layout
      ensures host.log == old(host.log) + SettingsEffect(layout, settings, host.env).calls
    {
      var persisted := PersistThemeSettings(layout, settings);
      var styled := ApplyLookAndFeel(persisted, settings);
      updated := LinkMasterPage(styled, settings);
    }

    /** The type-settings phase: rebuild the bag and persist it, only when theme settings are given. */
    method PersistThemeSettings(layout: Layout, settings: Settings) returns (updated: Layout)
      modifies host`log
      ensures updated == PersistStep(layout, settings).layout
      ensures host.log == old(host.log) + PersistStep(layout, settings).calls
    {
      updated := layout;
      var properties := new PropertyBag(layout.typeSettings);
      properties.RemoveThemeKeys();
      if settings.themeSettings.Some? {
        var themeSettings := settings.themeSettings.value;
        var remaining := themeSettings.Keys;
        while remaining != {}
          invariant remaining <= themeSettings.Keys
          invariant properties.entries ==
            WithoutThemeKeys(layout.typeSettings) + Restricted(themeSettings, themeSettings.Keys - remaining)
          invariant host.log == old(host.log)
          decreases remaining
        {
          var key :| key in remaining;
          OverlayOneMore(WithoutThemeKeys(layout.typeSettings), themeSettings, themeSettings.Keys - remaining, key);
          properties.Put(key, themeSettings[key]);
          assert themeSettings.Keys - remaining + {key} == themeSettings.Keys - (remaining - {key});
          remaining := remaining - {key};
        }
        assert Restricted(themeSettings, themeSettings.Keys - remaining) == themeSettings;
        assert properties.entries == ReconciledBag(layout.typeSettings, settings.themeSettings);
        updated := host.UpdateLayout(layout, properties.entries);
        updated := updated.(typeSettings := properties.entries);
      }
    }

    /** The look-and-feel phase: resolve the theme by name unless it is null, and fall back to the current colour scheme and CSS. */
    method ApplyLookAndFeel(layout: Layout, settings: Settings) returns (updated: Layout)
      modifies host`log
      ensures updated == LookAndFeelStep(layout, settings, host.env).layout
      ensures host.log == old(host.log) + LookAndFeelStep(layout, settings, host.env).calls
    {
      var themeId := layout.themeId;
      if !IsNullText(settings.themeName) {
        themeId := GetThemeId(host.env.themesOf(layout.companyId), settings.themeName.value);
      }
      var colorSchemeName := settings.colorSchemeName.GetOr(layout.colorSchemeId);
      var css := settings.css.GetOr(layout.css);
      updated := host.UpdateLookAndFeel(layout, themeId, colorSchemeName, css);
    }

    /** The master-page phase: link the page-template entry named by the master page's key, when it exists. */
    method LinkMasterPage(layout: Layout, settings: Settings) returns (updated: Layout)
      modifies host`log
      ensures updated == MasterPageStep(layout, settings, host.env).layout
      ensures host.log == old(host.log) + MasterPageStep(layout, settings, host.env).calls
    {
      updated := layout;
      if settings.masterPage.Some? {
        var entryPlid := host.env.templateEntryPlid(layout.groupId, settings.masterPage.value.key.GetOr(""));
        if entryPlid.Some? {
          updated := host.UpdateMasterLayoutPlid(layout, entryPlid.value);
        }
      }
    }

    /**
     * Imports the children of a "Root" page element into the draft's
     * structure, one call per child, in order, at its index, under the
     * structure's main item; does nothing for any other page element.
     */
    method ImportPageDefinition(draftLayout: Layout, definition: PageDefinition) returns (failure: Option<Error>)
      modifies host`log
      ensures host.log == old(host.log) + ImportRun(draftLayout, definition, host.env).calls
      ensures failure == ImportRun(draftLayout, definition, host.env).failure
    {
      if definition.pageElement.None? {
        return None;
      }
      var pageElement := definition.pageElement.value;
      if IsNullText(pageElement.elementType) || pageElement.elementType != Some("Root") {
        return None;
      }
      var structure := host.FetchLayoutPageTemplateStructure(draftLayout.groupId, draftLayout.plid);
      if pageElement.pageElements.None? {
        return Some(MissingPageElements);
      }
      var pageElements := pageElement.pageElements.value;
      var j := 0;
      while j < |pageElements|
        invariant 0 <= j <= |pageElements|
        invariant host.log == old(host.log) + [FetchStructureCall(draftLayout.groupId, draftLayout.plid)]
                              + ElementCalls(draftLayout.plid, structure.mainItemId, pageElements[..j], 0)
      {
        host.ImportPageElement(draftLayout, structure, structure.mainItemId, pageElements[j], j);
        ElementCallsSnoc(draftLayout.plid, structure.mainItemId, pageElements[..j], pageElements[j], 0);
        assert pageElements[..j + 1] == pageElements[..j] + [pageElements[j]];
        j := j + 1;
      }
      assert pageElements[..j] == pageElements;
      return None;
    }
  }
}
