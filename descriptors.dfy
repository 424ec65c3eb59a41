/**
 * The bundled JSON descriptors, already parsed. An absent key, or one whose
 * value has the wrong JSON kind, is `None`.
 */
module Descriptors {
  import opened Wrappers

  /** One element of `layouts.json`. */
  datatype ManifestEntry = ManifestEntry(path: Option<string>)

  /** `<path>/page.json`. */
  datatype Page = Page(name: Option<string>, layoutType: Option<string>, privateLayout: Option<bool>)

  /** The `pageElement` object: its type and its children, each in serialized form. */
  datatype PageElement = PageElement(elementType: Option<string>, pageElements: Option<seq<string>>)

  datatype MasterPage = MasterPage(key: Option<string>)

  /** The `settings` object of a page definition. */
  datatype Settings = Settings(
    themeSettings: Option<map<string, string>>,
    themeName: Option<string>,
    colorSchemeName: Option<string>,
    css: Option<string>,
    masterPage: Option<MasterPage>)

  /** `<path>/page-definition.json`. */
  datatype PageDefinition = PageDefinition(pageElement: Option<PageElement>, settings: Option<Settings>)

  /** A bundled resource, as the JSON parser reads it. */
  datatype Descriptor =
    | ManifestDoc(entries: seq<ManifestEntry>)
    | PageDoc(page: Page)
    | PageDefinitionDoc(definition: PageDefinition)

  /** Why an initialization fails. */
  datatype Error =
    | ResourceNotFound(path: string)
    | MalformedDescriptor(path: string)
      /** A "Root" page element without a `pageElements` array is dereferenced as null. */
    | MissingPageElements

  type Resources = map<string, Descriptor>

  const ManifestPath: string := "/layouts/layouts.json"

  function PagePath(path: string): string {
    "/layouts/" + path + "/page.json"
  }

  function PageDefinitionPath(path: string): string {
    "/layouts/" + path + "/page-definition.json"
  }

  function ReadManifest(resources: Resources): (r: Result<seq<ManifestEntry>, Error>)
    ensures ManifestPath !in resources ==> r == Err(ResourceNotFound(ManifestPath))
    ensures r.Ok? <==> ManifestPath in resources && resources[ManifestPath].ManifestDoc?
    ensures r.Ok? ==> r.value == resources[ManifestPath].entries
  {
    if ManifestPath !in resources then Err(ResourceNotFound(ManifestPath))
    else match resources[ManifestPath]
      case ManifestDoc(entries) => Ok(entries)
      case _ => Err(MalformedDescriptor(ManifestPath))
  }

  function ReadPage(resources: Resources, path: string): (r: Result<Page, Error>)
    ensures path !in resources ==> r == Err(ResourceNotFound(path))
    ensures r.Ok? <==> path in resources && resources[path].PageDoc?
    ensures r.Ok? ==> r.value == resources[path].page
  {
    if path !in resources then Err(ResourceNotFound(path))
    else match resources[path]
      case PageDoc(page) => Ok(page)
      case _ => Err(MalformedDescriptor(path))
  }

  function ReadPageDefinition(resources: Resources, path: string): (r: Result<PageDefinition, Error>)
    ensures path !in resources ==> r == Err(ResourceNotFound(path))
    ensures r.Ok? <==> path in resources && resources[path].PageDefinitionDoc?
    ensures r.Ok? ==> r.value == resources[path].definition
  {
    if path !in resources then Err(ResourceNotFound(path))
    else match resources[path]
      case PageDefinitionDoc(definition) => Ok(definition)
      case _ => Err(MalformedDescriptor(path))
  }
}
