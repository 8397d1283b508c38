/**
  The public API mediator (Wox/PublicAPIInstance.cs): the object through which
  plugins change the main view model's query text, window and progress-bar
  visibility, ask for settings to be saved or the application restarted, push
  results, and through which the global keyboard hook reaches its subscriber.

  The main view model is reduced to the three fields the mediator writes; the
  savers and the updater are external collaborators whose calls are recorded,
  in order, in `trace`.
 */
module PublicApi {
  import opened Plugin

  datatype Visibility = Visible | Hidden | Collapsed

  /** The five subsystems whose state SaveAppAllSettings persists. */
  datatype Saver = MainViewModel | SettingWindowViewModel | PluginManager | ImageLoader | Alphabet

  /** A call the mediator makes into an external collaborator. */
  datatype Effect = Save(saver: Saver) | Restart(applicationFileName: string)

  /** The saves of SaveAppAllSettings, in the order it makes them. */
  const SaveSequence: seq<Effect> :=
    [Save(MainViewModel), Save(SettingWindowViewModel), Save(PluginManager), Save(ImageLoader), Save(Alphabet)]

  /** A key transition as reported by the low-level keyboard hook. */
  datatype KeyEvent = KeyDown | KeyUp | SysKeyDown | SysKeyUp
  {
    /** `(int)keyevent`: the Windows message number of the transition. */
    function Code(): (c: int)
      ensures c in {256, 257, 260, 261}
    {
      match this
      case KeyDown => 256
      case KeyUp => 257
      case SysKeyDown => 260
      case SysKeyUp => 261
    }
  }

  /** The modifier keys held down when the key event happened. */
  datatype SpecialKeyState = SpecialKeyState(ctrlPressed: bool, shiftPressed: bool, altPressed: bool, winPressed: bool)

  /** A GlobalKeyboardEvent subscriber: (key event code, virtual key code, modifiers) to verdict. */
  type KeyboardHandler = (int, int, SpecialKeyState) -> bool

  /** A mutable list of plugins (the host's List<PluginPair>). */
  class PluginList {
    var items: seq<PluginPair>

    constructor (items: seq<PluginPair>)
      ensures this.items == items
    {
      this.items := items;
    }

    method Add(p: PluginPair)
      modifies this
      ensures items == old(items) + [p]
    {
      items := items + [p];
    }
  }

  /**
    The host's file-path functions (`Path.IsPathRooted`, `Path.Combine`),
    about which nothing is assumed.
   */
  datatype PathOps = PathOps(isRooted: string -> bool, combine: (string, string) -> string)

  /** An icon path that names a file relative to some directory. */
  predicate IsRelativeIcon(paths: PathOps, icoPath: string)
  {
    icoPath != "" && !paths.isRooted(icoPath)
  }

  /**
    A result with the provenance of `plugin` and `query` stamped into it.
    Setting `PluginDirectory` on a result also resolves a relative icon path
    against the new directory; an empty or rooted icon path stays as it was.
   */
  function Stamp(r: Result, plugin: PluginMetadata, query: Query, paths: PathOps): (s: Result)
    ensures s.pluginDirectory == Some(plugin.pluginDirectory)
    ensures s.pluginID == Some(plugin.id)
    ensures s.originQuery == Some(query)
    ensures IsRelativeIcon(paths, r.icoPath) ==> s.icoPath == paths.combine(plugin.pluginDirectory, r.icoPath)
    ensures !IsRelativeIcon(paths, r.icoPath) ==> s.icoPath == r.icoPath
    ensures SameContent(s, r)
  {
    var icoPath := if IsRelativeIcon(paths, r.icoPath) then paths.combine(plugin.pluginDirectory, r.icoPath) else r.icoPath;
    r.(pluginDirectory := Some(plugin.pluginDirectory), icoPath := icoPath,
       pluginID := Some(plugin.id), originQuery := Some(query))
  }

  /** Two results agree on every field but the provenance fields and the icon path. */
  predicate SameContent(a: Result, b: Result)
  {
    && a.title == b.title
    && a.subTitle == b.subTitle
    && a.score == b.score
    && a.autoCompleteText == b.autoCompleteText
    && a.action == b.action
  }

  /**
    Stamping a stamped result again with the same plugin and query changes
    nothing, provided the icon path it resolved to is rooted (the plugin
    directory is absolute); otherwise the second stamp prefixes it again.
   */
  lemma StampTwiceIsStampOnce(r: Result, plugin: PluginMetadata, query: Query, paths: PathOps)
    requires IsRelativeIcon(paths, r.icoPath) ==> paths.isRooted(paths.combine(plugin.pluginDirectory, r.icoPath))
    ensures Stamp(Stamp(r, plugin, query, paths), plugin, query, paths) == Stamp(r, plugin, query, paths)
  {
  }

  class PublicAPIInstance {
    // the part of the main view model the mediator writes
    var queryText: string
    var mainWindowVisibility: Visibility
    var progressBarVisibility: Visibility
    /** Calls into the savers and the updater, oldest first. */
    var trace: seq<Effect>
    /** The GlobalKeyboardEvent event field: no subscriber, or one. */
    var globalKeyboardEvent: Option<KeyboardHandler>
    /** The plugin registry's list of all plugins. */
    const allPlugins: PluginList
    /** The executable UpdateManager.RestartApp is asked to start again. */
    const applicationFileName: string

    constructor (queryText: string, mainWindowVisibility: Visibility, progressBarVisibility: Visibility,
                 allPlugins: PluginList, applicationFileName: string)
      ensures this.queryText == queryText
      ensures this.mainWindowVisibility == mainWindowVisibility
      ensures this.progressBarVisibility == progressBarVisibility
      ensures this.allPlugins == allPlugins && this.applicationFileName == applicationFileName
      ensures trace == [] && globalKeyboardEvent.None?
    {
      this.queryText := queryText;
      this.mainWindowVisibility := mainWindowVisibility;
      this.progressBarVisibility := progressBarVisibility;
      this.allPlugins := allPlugins;
      this.applicationFileName := applicationFileName;
      trace := [];
      globalKeyboardEvent := None;
    }

    /** Sets the query text; `requery` is ignored and nothing else changes. */
    method ChangeQuery(query: string, requery: bool)
      modifies this`queryText
      ensures queryText == query
    {
      queryText := query;
    }

    /** Sets the query text; `selectAll` is ignored and nothing else changes. */
    method ChangeQueryText(query: string, selectAll: bool)
      modifies this`queryText
      ensures queryText == query
    {
      queryText := query;
    }

    /** Hides the main window, saves everything, then asks for a restart. */
    method RestarApp()
      modifies this`mainWindowVisibility, this`trace
      ensures mainWindowVisibility == Hidden
      ensures trace == old(trace) + SaveSequence + [Restart(applicationFileName)]
    {
      mainWindowVisibility := Hidden;
      SaveAppAllSettings();
      trace := trace + [Restart(applicationFileName)];
    }

    /** Calls each of the five savers once, in a fixed order. */
    method SaveAppAllSettings()
      modifies this`trace
      ensures trace == old(trace) + SaveSequence
    {
      trace := trace + [Save(MainViewModel)];
      trace := trace + [Save(SettingWindowViewModel)];
      trace := trace + [Save(PluginManager)];
      trace := trace + [Save(ImageLoader)];
      trace := trace + [Save(Alphabet)];
    }

    method HideApp()
      modifies this`mainWindowVisibility
      ensures mainWindowVisibility == Hidden
    {
      mainWindowVisibility := Hidden;
    }

    method ShowApp()
      modifies this`mainWindowVisibility
      ensures mainWindowVisibility == Visible
    {
      mainWindowVisibility := Visible;
    }

    method StartLoadingBar()
      modifies this`progressBarVisibility
      ensures progressBarVisibility == Visible
    {
      progressBarVisibility := Visible;
    }

    method StopLoadingBar()
      modifies this`progressBarVisibility
      ensures progressBarVisibility == Collapsed
    {
      progressBarVisibility := Collapsed;
    }

    /** A new list holding the registry's plugins, in the registry's order. */
    method GetAllPlugins() returns (list: PluginList)
      ensures fresh(list)
      ensures list.items == allPlugins.items
    {
      list := new PluginList(allPlugins.items);
    }

    /**
      Stamps the provenance of `plugin` and `query` into every result of the
      list, in place (resolving relative icon paths against the plugin's
      directory); the list keeps its length and every other field.
     */
    method PushResults(query: Query, plugin: PluginMetadata, results: array<Result>, paths: PathOps)
      modifies results
      ensures forall k :: 0 <= k < results.Length ==> results[k] == Stamp(old(results[k]), plugin, query, paths)
    {
      var i := 0;
      while i < results.Length
        invariant 0 <= i <= results.Length
        invariant forall k :: 0 <= k < i ==> results[k] == Stamp(old(results[k]), plugin, query, paths)
        invariant forall k :: i <= k < results.Length ==> results[k] == old(results[k])
      {
        results[i] := Stamp(results[i], plugin, query, paths);
        i := i + 1;
      }
    }

    /**
      The keyboard hook's verdict: allow the key when nobody subscribed,
      otherwise whatever the subscriber answers.
     */
    function KListenerHookedKeyboardCallback(keyevent: KeyEvent, vkcode: int, state: SpecialKeyState): (allow: bool)
      reads this
      ensures globalKeyboardEvent.None? ==> allow
      ensures globalKeyboardEvent.Some? ==> allow == globalKeyboardEvent.value(keyevent.Code(), vkcode, state)
    {
      match globalKeyboardEvent
      case Some(handler) => handler(keyevent.Code(), vkcode, state)
      case None => true
    }
  }

  /**
    Runs a result's action against the API: the query change it makes, if
    any, through ChangeQuery, then the verdict it returns.
   */
  method RunAction(api: PublicAPIInstance, action: ResultAction) returns (closeWindow: bool)
    modifies api`queryText
    ensures action.changeQueryTo.Some? ==> api.queryText == action.changeQueryTo.value
    ensures action.changeQueryTo.None? ==> api.queryText == old(api.queryText)
    ensures closeWindow == action.closeWindow
  {
    if action.changeQueryTo.Some? {
      api.ChangeQuery(action.changeQueryTo.value, false);
    }
    closeWindow := action.closeWindow;
  }

  /** Each saver appears in the save sequence exactly once. */
  lemma SaveSequenceCallsEachSaverOnce(s: Saver)
    ensures multiset(SaveSequence)[Save(s)] == 1
  {
  }

  /** In what RestarApp appends to the trace, the restart comes after all five saves. */
  lemma RestartFollowsAllSaves(t: seq<Effect>, file: string)
    ensures var trace := t + SaveSequence + [Restart(file)];
      && |trace| == |t| + 6
      && trace[|trace| - 1] == Restart(file)
      && (forall i :: |t| <= i < |trace| - 1 ==> trace[i].Save?)
  {
  }

  /**
    The copy GetAllPlugins returns is not the registry: adding to it leaves the
    registry's list as it was.
   */
  method GetAllPluginsIsACopy(api: PublicAPIInstance, extra: PluginPair) returns (list: PluginList)
    ensures list.items == api.allPlugins.items + [extra]
    ensures api.allPlugins.items == old(api.allPlugins.items)
  {
    list := api.GetAllPlugins();
    list.Add(extra);
  }

  /** Starting or stopping the loading bar twice leaves it as once would. */
  method LoadingBarIsIdempotent(api: PublicAPIInstance, start: bool)
    modifies api`progressBarVisibility
    ensures api.progressBarVisibility == if start then Visible else Collapsed
  {
    if start {
      api.StartLoadingBar();
      api.StartLoadingBar();
    } else {
      api.StopLoadingBar();
      api.StopLoadingBar();
    }
  }
}
