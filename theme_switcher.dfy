/**
 * The theme switcher: a list of theme options, a preview that hovering sets
 * and leaving clears, and a click that previews the theme and asks the
 * preferences provider to save it. The theme shown is found by id, falling
 * back to the first option.
 */
module ThemeSwitcher {
  import opened Options
  import opened Firebase
  import Preferences

  datatype ThemeOption = ThemeOption(
    id: string, name: string, gradient: string, glow: string,
    bgGradient: string, borderColor: string, textColor: string)

  const Themes: seq<ThemeOption> := [
    ThemeOption("cyberpunk", "Cyberpunk", "from-violet-600 to-blue-500", "shadow-glow-violet",
                "from-violet-900/20 to-blue-900/20", "border-violet-500/50", "text-violet-400"),
    ThemeOption("shadow", "Shadow", "from-gray-800 to-gray-900", "shadow-glow-blue",
                "from-gray-900/20 to-slate-900/20", "border-blue-500/50", "text-blue-400"),
    ThemeOption("light", "Light", "from-gray-200 to-gray-300", "shadow-glow-red",
                "from-gray-100/20 to-gray-200/20", "border-red-500/50", "text-red-400")
  ]

  /** Whether the key (a JavaScript value, or undefined) is strictly equal to the option's id. */
  predicate Names(key: Option<Value>, option: ThemeOption) {
    key == Some(Str(option.id))
  }

  /** `preferences?.theme`: undefined when there are no preferences or no theme field. */
  function SavedTheme(prefs: Option<Record>): Option<Value> {
    if prefs.Some? && "theme" in prefs.value then Some(prefs.value["theme"]) else None
  }

  /** `previewTheme || preferences?.theme`: an empty or missing preview falls through. */
  function SelectionKey(preview: Option<string>, prefs: Option<Record>): Option<Value> {
    if preview.Some? && preview.value != "" then Some(Str(preview.value)) else SavedTheme(prefs)
  }

  /** `find`: the position of the first option the key names. */
  function FindTheme(options: seq<ThemeOption>, key: Option<Value>): (r: Option<nat>)
    ensures r.Some? ==> r.value < |options| && Names(key, options[r.value])
    ensures r.Some? ==> forall j :: 0 <= j < r.value ==> !Names(key, options[j])
    ensures r.None? ==> forall j :: 0 <= j < |options| ==> !Names(key, options[j])
  {
    if |options| == 0 then None
    else if Names(key, options[0]) then Some(0)
    else match FindTheme(options[1..], key)
      case None => None
      case Some(i) => Some(i + 1)
  }

  lemma ThemeIdsDistinct()
    ensures forall i, j :: 0 <= i < j < |Themes| ==> Themes[i].id != Themes[j].id
  {
  }

  /** The theme the preview panel shows. */
  function CurrentTheme(preview: Option<string>, prefs: Option<Record>): (t: ThemeOption)
    ensures t in Themes
    ensures (exists j :: 0 <= j < |Themes| && Names(SelectionKey(preview, prefs), Themes[j])) ==>
      Names(SelectionKey(preview, prefs), t)
    ensures (forall j :: 0 <= j < |Themes| ==> !Names(SelectionKey(preview, prefs), Themes[j])) ==>
      t == Themes[0]
  {
    match FindTheme(Themes, SelectionKey(preview, prefs))
    case Some(i) => Themes[i]
    case None => Themes[0]
  }

  /** The option marked as active: the one whose id is the saved theme, if any.
      The preview plays no part. */
  function Highlighted(prefs: Option<Record>): (r: Option<ThemeOption>)
    ensures r.Some? <==> exists j :: 0 <= j < |Themes| && Names(SavedTheme(prefs), Themes[j])
    ensures r.Some? ==> r.value in Themes && Names(SavedTheme(prefs), r.value)
  {
    match FindTheme(Themes, SavedTheme(prefs))
    case Some(i) => Some(Themes[i])
    case None => None
  }

  /** A saved theme that is not in the list, such as 'dark' (which a profile
      document may carry), is not highlighted, and without a preview the first
      option, 'cyberpunk', is shown. */
  lemma UnknownIdFallsBack(prefs: Record, id: string)
    requires forall j :: 0 <= j < |Themes| ==> Themes[j].id != id
    requires "theme" in prefs && prefs["theme"] == Str(id)
    ensures Highlighted(Some(prefs)).None?
    ensures CurrentTheme(None, Some(prefs)) == Themes[0] && Themes[0].id == "cyberpunk"
  {
  }

  /** Without a preview the panel shows the highlighted option, or the first
      option when none is highlighted. */
  lemma WithoutPreviewShowsHighlighted(prefs: Option<Record>)
    ensures Highlighted(prefs).Some? ==> CurrentTheme(None, prefs) == Highlighted(prefs).value
    ensures Highlighted(prefs).None? ==> CurrentTheme(None, prefs) == Themes[0]
  {
  }

  /** The update a click requests: the theme field alone. */
  function ThemeRequest(id: string): (r: Record)
    ensures r.Keys == {"theme"} && r["theme"] == Str(id)
  {
    map["theme" := Str(id)]
  }

  /** Once a click's update has been saved, the chosen theme is the saved one:
      it is highlighted and, with the preview cleared, still shown. */
  lemma SavedClickIsShown(current: Option<Record>, j: nat)
    requires j < |Themes|
    ensures var saved := Some(Preferences.UpdatedPreferences(current, ThemeRequest(Themes[j].id)));
      Highlighted(saved) == Some(Themes[j]) && CurrentTheme(None, saved) == Themes[j]
  {
  }

  class Switcher {
    var previewTheme: Option<string>

    constructor ()
      ensures previewTheme == None
    {
      previewTheme := None;
    }

    /** Mouse enters an option: preview it. */
    method Hover(id: string)
      modifies this
      ensures previewTheme == Some(id)
    {
      previewTheme := Some(id);
    }

    /** Mouse leaves an option: drop the preview, so the saved theme shows. */
    method Leave(prefs: Option<Record>)
      modifies this
      ensures previewTheme == None
      ensures CurrentTheme(previewTheme, prefs) ==
        (if Highlighted(prefs).Some? then Highlighted(prefs).value else Themes[0])
    {
      previewTheme := None;
      WithoutPreviewShowsHighlighted(prefs);
    }

    /** Click on an option: preview it and ask the provider to save a record
        holding only the theme. */
    method Click(id: string, provider: Preferences.Provider, user: Option<User>, writeFails: bool)
      modifies this, provider, provider.store
      ensures previewTheme == Some(id)
      ensures provider.loading == old(provider.loading)
      ensures user.None? || !writeFails ==> provider.error == old(provider.error)
      ensures user.Some? && writeFails ==> provider.error == Some(Preferences.UpdateError)
      ensures user.Some? ==>
        provider.store.log == old(provider.store.log)
          + [SetCall(user.value.uid, Preferences.UpdatedPreferences(old(provider.preferences), ThemeRequest(id)), true)]
      ensures user.Some? && !writeFails ==>
        provider.preferences == Some(Preferences.UpdatedPreferences(old(provider.preferences), ThemeRequest(id)))
      ensures user.None? || writeFails ==> provider.preferences == old(provider.preferences)
      ensures user.None? ==> provider.store.log == old(provider.store.log)
      ensures user.None? || writeFails ==> provider.store.docs == old(provider.store.docs)
      ensures user.Some? && !writeFails ==>
        provider.store.docs == old(provider.store.docs)[user.value.uid :=
          var request := Preferences.UpdatedPreferences(old(provider.preferences), ThemeRequest(id));
          if user.value.uid in old(provider.store.docs)
          then MergeInto(old(provider.store.docs)[user.value.uid], request)
          else request]
    {
      previewTheme := Some(id);
      provider.UpdatePreferences(user, ThemeRequest(id), writeFails);
    }
  }
}
