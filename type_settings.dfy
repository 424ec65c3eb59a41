/**
 * A layout's type settings: a flat string-to-string property bag in which
 * every key that starts with "lfr-theme:" belongs to the theme settings.
 */
module TypeSettings {
  import opened Wrappers

  const ThemePrefix: string := "lfr-theme:"

  predicate IsThemeKey(key: string) {
    ThemePrefix <= key
  }

  /** The bag after removing every theme-owned entry. */
  function WithoutThemeKeys(bag: map<string, string>): (r: map<string, string>)
    ensures forall k :: k in r <==> k in bag && !IsThemeKey(k)
    ensures forall k :: k in r ==> r[k] == bag[k]
  {
    map k | k in bag && !IsThemeKey(k) :: bag[k]
  }

  /**
   * The bag after one reconciliation: theme-owned entries are cleared, then
   * the supplied theme settings, when there are any, are written over it.
   */
  function ReconciledBag(bag: map<string, string>, themeSettings: Option<map<string, string>>): (r: map<string, string>)
    ensures forall k :: k in r <==>
      (themeSettings.Some? && k in themeSettings.value) || (k in bag && !IsThemeKey(k))
    ensures forall k :: themeSettings.Some? && k in themeSettings.value ==> r[k] == themeSettings.value[k]
    ensures forall k :: k in bag && !IsThemeKey(k) && (themeSettings.None? || k !in themeSettings.value) ==>
      r[k] == bag[k]
  {
    match themeSettings
    case None => WithoutThemeKeys(bag)
    case Some(ts) => WithoutThemeKeys(bag) + ts
  }

  /** Reconciling twice with the same theme settings gives the bag of reconciling once. */
  lemma ReconcileIdempotent(bag: map<string, string>, themeSettings: Option<map<string, string>>)
    ensures ReconciledBag(ReconciledBag(bag, themeSettings), themeSettings) == ReconciledBag(bag, themeSettings)
  {
    var once := ReconciledBag(bag, themeSettings);
    var twice := ReconciledBag(once, themeSettings);
    assert forall k :: k in twice <==> k in once;
    assert forall k :: k in twice ==> twice[k] == once[k];
  }

  /** After reconciliation the theme-owned keys are exactly those of the supplied theme settings. */
  lemma ThemeKeysReplaced(bag: map<string, string>, themeSettings: Option<map<string, string>>)
    ensures forall k :: IsThemeKey(k) ==>
      (k in ReconciledBag(bag, themeSettings) <==> themeSettings.Some? && k in themeSettings.value)
  {
  }

  /** The entries of `overlay` whose keys are in `keys`. */
  function Restricted(overlay: map<string, string>, keys: set<string>): (r: map<string, string>)
    ensures r.Keys == overlay.Keys * keys
    ensures forall k :: k in r ==> r[k] == overlay[k]
  {
    map k | k in overlay.Keys * keys :: overlay[k]
  }

  /** Writing one more overlay entry over a partially overlaid bag overlays one more key. */
  lemma OverlayOneMore(base: map<string, string>, overlay: map<string, string>, written: set<string>, key: string)
    requires key in overlay
    ensures (base + Restricted(overlay, written))[key := overlay[key]] == base + Restricted(overlay, written + {key})
  {
    var before := (base + Restricted(overlay, written))[key := overlay[key]];
    var after := base + Restricted(overlay, written + {key});
    assert before.Keys == after.Keys;
    forall k | k in after
      ensures before[k] == after[k]
    {
    }
  }

  /**
   * The mutable property bag of one layout: entries are removed by predicate
   * and written one key at a time.
   */
  class PropertyBag {
    var entries: map<string, string>

    constructor (initial: map<string, string>)
      ensures entries == initial
    {
      entries := initial;
    }

    /** Removes every entry whose key starts with the theme prefix. */
    method RemoveThemeKeys()
      modifies this
      ensures entries == WithoutThemeKeys(old(entries))
    {
      entries := map k | k in entries && !IsThemeKey(k) :: entries[k];
    }

    /** Writes one entry, replacing any value already stored under `key`. */
    method Put(key: string, value: string)
      modifies this
      ensures entries == old(entries)[key := value]
    {
      entries := entries[key := value];
    }
  }
}
