/**
 * The host platform's services as the initializer sees them: layout records,
 * the ordered log of every call the initializer makes on the layout
 * services, and the lookups the initializer consults (theme registry, page-template entries, draft layouts,
 * page structures).
 */
module Platform {
  import opened Wrappers
  import opened Themes

  const TypeContent: string := "content"
  const TypePortlet: string := "portlet"
  const DefaultParentLayoutId: int := 0
  const StatusApproved: int := 0

  /** The caller's identity and target site for every service call. */
  datatype ServiceContext = ServiceContext(userId: int, scopeGroupId: int)

  /** One layout record as returned by the layout service. */
  datatype Layout = Layout(
    plid: int,
    groupId: int,
    companyId: int,
    userId: int,
    layoutId: int,
    privateLayout: bool,
    layoutType: string,
    name: string,
    themeId: Option<string>,
    colorSchemeId: string,
    css: string,
    typeSettings: map<string, string>,
    masterLayoutPlid: int)

  /** The layout-structure model of a draft layout, with its main item. */
  datatype Structure = Structure(plid: int, mainItemId: string)

  /** A call the initializer makes on a host service, with the arguments that identify it. */
  datatype Call =
    | AddLayoutCall(userId: int, groupId: int, privateLayout: bool, parentLayoutId: int, name: string, layoutType: string)
    | FetchDraftLayoutCall(plid: int)
    | FetchStructureCall(groupId: int, plid: int)
    | ImportPageElementCall(plid: int, parentItemId: string, pageElement: string, position: int)
    | UpdateLayoutCall(groupId: int, privateLayout: bool, layoutId: int, typeSettings: map<string, string>)
    | UpdateLookAndFeelCall(groupId: int, privateLayout: bool, layoutId: int, themeId: Option<string>, colorSchemeId: string, css: string)
    | UpdateMasterLayoutPlidCall(groupId: int, privateLayout: bool, layoutId: int, masterLayoutPlid: int)
    | CopyLayoutCall(sourcePlid: int, targetPlid: int)
    | UpdateStatusCall(userId: int, plid: int, status: int)

  /**
   * What the platform answers to lookups: the themes of a company in
   * registry order, the page-template entry of a key in a group, the draft
   * of a layout, the main item of a draft's structure and the company of a
   * group.
   */
  datatype Registry = Registry(
    themesOf: int -> seq<Theme>,
    templateEntryPlid: (int, string) -> Option<int>,
    draftOf: int -> Layout,
    mainItemOf: int -> string,
    companyOf: int -> int)

  /** The record `addLayout` creates for a fresh plid. */
  function NewLayout(env: Registry, plid: int, userId: int, groupId: int, privateLayout: bool, name: string, layoutType: string): (r: Layout)
    ensures r.plid == plid && r.userId == userId && r.groupId == groupId
    ensures r.privateLayout == privateLayout && r.name == name && r.layoutType == layoutType
  {
    Layout(plid, groupId, env.companyOf(groupId), userId, plid, privateLayout, layoutType, name,
           None, "", "", map[], 0)
  }

  /** The target record after the draft's configuration has been copied onto it. */
  function CopiedLayout(source: Layout, target: Layout): (r: Layout)
    ensures r.plid == target.plid && r.userId == target.userId && r.layoutId == target.layoutId
    ensures r.typeSettings == source.typeSettings && r.themeId == source.themeId
    ensures r.colorSchemeId == source.colorSchemeId && r.css == source.css
    ensures r.masterLayoutPlid == source.masterLayoutPlid
  {
    target.(typeSettings := source.typeSettings, themeId := source.themeId,
            colorSchemeId := source.colorSchemeId, css := source.css,
            masterLayoutPlid := source.masterLayoutPlid)
  }

  /**
   * The host services. Every call the initializer makes on the layout
   * services, reads included, is appended to `log`; the theme and
   * page-template lookups are answered by `env` and not logged;
   * each update returns the record with exactly the fields it was asked to
   * change.
   */
  class LayoutServices {
    const env: Registry
    var log: seq<Call>
    var nextPlid: int

    constructor (env: Registry, firstPlid: int)
      ensures this.env == env && log == [] && nextPlid == firstPlid
    {
      this.env := env;
      log := [];
      nextPlid := firstPlid;
    }

    method AddLayout(userId: int, groupId: int, privateLayout: bool, parentLayoutId: int, name: string, layoutType: string)
      returns (layout: Layout)
      modifies this`log, this`nextPlid
      ensures layout == NewLayout(env, old(nextPlid), userId, groupId, privateLayout, name, layoutType)
      ensures nextPlid == old(nextPlid) + 1
      ensures log == old(log) + [AddLayoutCall(userId, groupId, privateLayout, parentLayoutId, name, layoutType)]
    {
      layout := NewLayout(env, nextPlid, userId, groupId, privateLayout, name, layoutType);
      nextPlid := nextPlid + 1;
      log := log + [AddLayoutCall(userId, groupId, privateLayout, parentLayoutId, name, layoutType)];
    }

    method FetchDraftLayout(layout: Layout) returns (draft: Layout)
      modifies this`log
      ensures draft == env.draftOf(layout.plid)
      ensures log == old(log) + [FetchDraftLayoutCall(layout.plid)]
    {
      draft := env.draftOf(layout.plid);
      log := log + [FetchDraftLayoutCall(layout.plid)];
    }

    method FetchLayoutPageTemplateStructure(groupId: int, plid: int) returns (structure: Structure)
      modifies this`log
      ensures structure == Structure(plid, env.mainItemOf(plid))
      ensures log == old(log) + [FetchStructureCall(groupId, plid)]
    {
      structure := Structure(plid, env.mainItemOf(plid));
      log := log + [FetchStructureCall(groupId, plid)];
    }

    method ImportPageElement(draft: Layout, structure: Structure, parentItemId: string, pageElement: string, position: int)
      modifies this`log
      ensures log == old(log) + [ImportPageElementCall(draft.plid, parentItemId, pageElement, position)]
    {
      log := log + [ImportPageElementCall(draft.plid, parentItemId, pageElement, position)];
    }

    method UpdateLayout(layout: Layout, typeSettings: map<string, string>) returns (updated: Layout)
      modifies this`log
      ensures updated == layout.(typeSettings := typeSettings)
      ensures log == old(log) + [UpdateLayoutCall(layout.groupId, layout.privateLayout, layout.layoutId, typeSettings)]
    {
      updated := layout.(typeSettings := typeSettings);
      log := log + [UpdateLayoutCall(layout.groupId, layout.privateLayout, layout.layoutId, typeSettings)];
    }

    method UpdateLookAndFeel(layout: Layout, themeId: Option<string>, colorSchemeId: string, css: string)
      returns (updated: Layout)
      modifies this`log
      ensures updated == layout.(themeId := themeId, colorSchemeId := colorSchemeId, css := css)
      ensures log == old(log) +
        [UpdateLookAndFeelCall(layout.groupId, layout.privateLayout, layout.layoutId, themeId, colorSchemeId, css)]
    {
      updated := layout.(themeId := themeId, colorSchemeId := colorSchemeId, css := css);
      log := log + [UpdateLookAndFeelCall(layout.groupId, layout.privateLayout, layout.layoutId, themeId, colorSchemeId, css)];
    }

    method UpdateMasterLayoutPlid(layout: Layout, masterLayoutPlid: int) returns (updated: Layout)
      modifies this`log
      ensures updated == layout.(masterLayoutPlid := masterLayoutPlid)
      ensures log == old(log) +
        [UpdateMasterLayoutPlidCall(layout.groupId, layout.privateLayout, layout.layoutId, masterLayoutPlid)]
    {
      updated := layout.(masterLayoutPlid := masterLayoutPlid);
      log := log + [UpdateMasterLayoutPlidCall(layout.groupId, layout.privateLayout, layout.layoutId, masterLayoutPlid)];
    }

    method CopyLayout(source: Layout, target: Layout) returns (updated: Layout)
      modifies this`log
      ensures updated == CopiedLayout(source, target)
      ensures log == old(log) + [CopyLayoutCall(source.plid, target.plid)]
    {
      updated := CopiedLayout(source, target);
      log := log + [CopyLayoutCall(source.plid, target.plid)];
    }

    method UpdateStatus(userId: int, plid: int, status: int)
      modifies this`log
      ensures log == old(log) + [UpdateStatusCall(userId, plid, status)]
    {
      log := log + [UpdateStatusCall(userId, plid, status)];
    }
  }
}
