/** Resolving a theme name to a theme id against the company's theme registry. */
module Themes {
  import opened Wrappers

  datatype Theme = Theme(themeId: string, name: string)

  /** The registry entries whose name equals `name`, in registry order. */
  function MatchingThemes(themes: seq<Theme>, name: string): (r: seq<Theme>)
    ensures forall t :: t in r <==> t in themes && t.name == name
    ensures r == [] <==> forall i :: 0 <= i < |themes| ==> themes[i].name != name
    ensures r != [] ==> exists i :: 0 <= i < |themes| && themes[i] == r[0] &&
                                  (forall j :: 0 <= j < i ==> themes[j].name != name)
  {
    if themes == [] then []
    else if themes[0].name == name then [themes[0]] + MatchingThemes(themes[1..], name)
    else
      var rest := MatchingThemes(themes[1..], name);
      assert forall j :: 1 <= j < |themes| ==> themes[j] == themes[1..][j - 1];
      assert rest != [] ==> exists i :: 0 <= i < |themes| && themes[i] == rest[0] &&
                                      (forall j :: 0 <= j < i ==> themes[j].name != name) by {
        if rest != [] {
          var k :| 0 <= k < |themes[1..]| && themes[1..][k] == rest[0] &&
                   (forall j :: 0 <= j < k ==> themes[1..][j].name != name);
          assert themes[k + 1] == rest[0];
          assert forall j :: 0 <= j < k + 1 ==> themes[j].name != name;
        }
      }
      rest
  }

  /**
   * The id of the first theme in registry order whose name is exactly
   * `name`, or no id when none matches.
   */
  function GetThemeId(themes: seq<Theme>, name: string): (r: Option<string>)
    ensures r.None? <==> forall i :: 0 <= i < |themes| ==> themes[i].name != name
    ensures r.Some? ==> exists i :: 0 <= i < |themes| && themes[i].name == name && themes[i].themeId == r.value &&
                                    (forall j :: 0 <= j < i ==> themes[j].name != name)
  {
    var matching := MatchingThemes(themes, name);
    if |matching| > 0 then Some(matching[0].themeId) else None
  }
}
