/**
  Values shared by the launcher's plugin-facing code: plugin metadata, the
  parsed query, and the result entries a plugin hands back to the host.
 */
module Plugin {

  datatype Option<T> = None | Some(value: T)

  /** The separator between an action keyword and the rest of a query. */
  const TermSeparator: string := " "

  /** What the core reads of a plugin's metadata. */
  datatype PluginMetadata = PluginMetadata(
    id: string,
    name: string,
    disabled: bool,
    icoPath: string,
    pluginDirectory: string)

  /** A loaded plugin; the plugin instance itself is opaque to the core. */
  datatype PluginPair = PluginPair(metadata: PluginMetadata)

  /** One keystroke's query: the raw text, its action keyword and the search text after it. */
  datatype Query = Query(rawQuery: string, actionKeyword: string, search: string)

  /**
    What selecting a result does, as data: the query text its action sets
    through the host API (if any) and the value the action returns
    (true = close the main window, false = keep it open).
   */
  datatype ResultAction = ResultAction(changeQueryTo: Option<string>, closeWindow: bool)

  /**
    A result entry. The three provenance fields stay unset (`None`, null in
    the host) unless the host stamps them.
   */
  datatype Result = Result(
    title: string,
    subTitle: string,
    score: int,
    icoPath: string,
    autoCompleteText: string,
    action: ResultAction,
    pluginDirectory: Option<string>,
    pluginID: Option<string>,
    originQuery: Option<Query>)

  /** The titles of a result list, in order. */
  function Titles(rs: seq<Result>): (ts: seq<string>)
    ensures |ts| == |rs|
    ensures forall i :: 0 <= i < |rs| ==> ts[i] == rs[i].title
  {
    if rs == [] then [] else [rs[0].title] + Titles(rs[1..])
  }

  predicate Distinct(s: seq<string>)
  {
    forall i, j :: 0 <= i < j < |s| ==> s[i] != s[j]
  }
}
