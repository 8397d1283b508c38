/**
  The plugin-indicator plugin (Plugins/Flow.Launcher.Plugin.PluginIndicator/Main.cs):
  for a query it lists, as results, the action keywords of the non-global
  plugins whose keyword or name matches the search, or all enabled ones when
  the search is empty. Selecting a result puts its keyword (and a separator)
  into the query box, so that the next keystrokes go to that plugin.
 */
module PluginIndicator {
  import opened Plugin
  import PublicApi

  /**
    What the plugin uses of its init context: the fuzzy matcher's verdict
    "the score of this search against this text meets the precision
    threshold", and the translated subtitle template applied to a plugin name.
   */
  datatype Context = Context(precisionMet: (string, string) -> bool, subTitleFor: string -> string)

  /**
    The registry's non-global plugins, indexed by action keyword; `keywords`
    is the order in which the index enumerates its keys.
   */
  datatype KeywordIndex = KeywordIndex(keywords: seq<string>, plugins: map<string, PluginPair>)
  {
    ghost predicate Valid()
    {
      && Distinct(keywords)
      && (forall k :: k in plugins <==> k in keywords)
    }
  }

  /** The query's filter: the keyword or the plugin's name matches, or the search is empty; and the plugin is enabled. */
  predicate Listed(ctx: Context, search: string, keyword: string, metadata: PluginMetadata)
    ensures Listed(ctx, search, keyword, metadata) ==> !metadata.disabled
    ensures search == "" ==> (Listed(ctx, search, keyword, metadata) <==> !metadata.disabled)
  {
    && (ctx.precisionMet(search, keyword) || ctx.precisionMet(search, metadata.name) || search == "")
    && !metadata.disabled
  }

  /** The result listing `keyword`, a keyword of the plugin described by `metadata`. */
  function IndicatorResult(ctx: Context, keyword: string, metadata: PluginMetadata): (r: Result)
    ensures r.title == keyword && r.score == 100 && r.icoPath == metadata.icoPath
    ensures r.subTitle == ctx.subTitleFor(metadata.name)
    ensures r.autoCompleteText == keyword + TermSeparator
    ensures r.action == ResultAction(Some(keyword + TermSeparator), false)
    ensures r.pluginDirectory.None? && r.pluginID.None? && r.originQuery.None?
  {
    Result(
      title := keyword,
      subTitle := ctx.subTitleFor(metadata.name),
      score := 100,
      icoPath := metadata.icoPath,
      autoCompleteText := keyword + TermSeparator,
      action := ResultAction(Some(keyword + TermSeparator), false),
      pluginDirectory := None,
      pluginID := None,
      originQuery := None)
  }

  /**
    The results for `search` over the keywords `keywords` (in that order):
    every result lists one of them that passes the filter.
   */
  function Results(ctx: Context, search: string, keywords: seq<string>, plugins: map<string, PluginPair>): (rs: seq<Result>)
    requires forall k <- keywords :: k in plugins
    ensures |rs| <= |keywords|
    ensures forall r <- rs :: r.title in keywords
    ensures forall r <- rs :: Listed(ctx, search, r.title, plugins[r.title].metadata)
    ensures forall r <- rs :: r == IndicatorResult(ctx, r.title, plugins[r.title].metadata)
  {
    if keywords == [] then []
    else
      var keyword := keywords[0];
      var metadata := plugins[keyword].metadata;
      (if Listed(ctx, search, keyword, metadata) then [IndicatorResult(ctx, keyword, metadata)] else [])
        + Results(ctx, search, keywords[1..], plugins)
  }

  /** The plugin object: its context is set once, by Init. */
  class Main {
    var context: Option<Context>

    constructor ()
      ensures context.None?
    {
      context := None;
    }

    method Init(context: Context)
      modifies this
      ensures this.context == Some(context)
    {
      this.context := Some(context);
    }

    /**
      One result per matching, enabled keyword of the index, each scored 100,
      titled with its keyword and completing to keyword and separator.
     */
    function Query(query: Plugin.Query, index: KeywordIndex): (rs: seq<Result>)
      reads this
      requires context.Some?
      requires index.Valid()
      ensures index.keywords == [] ==> rs == []
      ensures forall r <- rs :: r.title in index.plugins && !index.plugins[r.title].metadata.disabled
      ensures forall r <- rs :: r.score == 100 && r.autoCompleteText == r.title + TermSeparator
      ensures forall r <- rs :: r.icoPath == index.plugins[r.title].metadata.icoPath
      ensures forall r <- rs :: r.action == ResultAction(Some(r.title + TermSeparator), false)
    {
      Results(context.value, query.search, index.keywords, index.plugins)
    }
  }

  /** Every keyword that passes the filter is listed. */
  lemma {:induction false} ResultsComplete(ctx: Context, search: string, keywords: seq<string>,
                                           plugins: map<string, PluginPair>, k: string)
    requires forall x <- keywords :: x in plugins
    requires k in keywords && Listed(ctx, search, k, plugins[k].metadata)
    ensures k in Titles(Results(ctx, search, keywords, plugins))
  {
    var rest := Results(ctx, search, keywords[1..], plugins);
    if keywords[0] == k {
      assert Titles(Results(ctx, search, keywords, plugins))[0] == k;
    } else {
      ResultsComplete(ctx, search, keywords[1..], plugins, k);
      var i :| 0 <= i < |Titles(rest)| && Titles(rest)[i] == k;
      var rs := Results(ctx, search, keywords, plugins);
      var offset := |rs| - |rest|;
      assert rs[offset + i] == rest[i];
      assert Titles(rs)[offset + i] == k;
    }
  }

  /**
    A keyword is listed exactly when it is a key of the index, its plugin is
    enabled, and the fuzzy matcher accepts the search against the keyword or
    against the plugin's name, or the search is empty.
   */
  lemma ListedIff(ctx: Context, search: string, index: KeywordIndex, k: string)
    requires index.Valid()
    ensures k in Titles(Results(ctx, search, index.keywords, index.plugins)) <==>
      k in index.plugins && Listed(ctx, search, k, index.plugins[k].metadata)
  {
    var rs := Results(ctx, search, index.keywords, index.plugins);
    if k in Titles(rs) {
      var i :| 0 <= i < |rs| && Titles(rs)[i] == k;
      assert rs[i] in rs;
    }
    if k in index.plugins && Listed(ctx, search, k, index.plugins[k].metadata) {
      ResultsComplete(ctx, search, index.keywords, index.plugins, k);
    }
  }

  /** A disabled plugin's keyword is never listed, whatever the fuzzy matcher says. */
  lemma DisabledNeverListed(ctx: Context, search: string, index: KeywordIndex, k: string)
    requires index.Valid()
    requires k in index.plugins && index.plugins[k].metadata.disabled
    ensures k !in Titles(Results(ctx, search, index.keywords, index.plugins))
  {
  }

  /** `xs` is `ys` with some elements left out: it keeps the rest in their order. */
  predicate IsSubsequence(xs: seq<string>, ys: seq<string>)
    decreases |ys|
  {
    if xs == [] then true
    else if ys == [] then false
    else (xs[0] == ys[0] && IsSubsequence(xs[1..], ys[1..])) || IsSubsequence(xs, ys[1..])
  }

  /** The listed keywords come in the index's enumeration order. */
  lemma {:induction false} ResultsFollowKeywordOrder(ctx: Context, search: string, keywords: seq<string>,
                                                     plugins: map<string, PluginPair>)
    requires forall k <- keywords :: k in plugins
    ensures IsSubsequence(Titles(Results(ctx, search, keywords, plugins)), keywords)
  {
    if keywords != [] {
      var keyword := keywords[0];
      var metadata := plugins[keyword].metadata;
      var head := if Listed(ctx, search, keyword, metadata) then [IndicatorResult(ctx, keyword, metadata)] else [];
      var rest := Results(ctx, search, keywords[1..], plugins);
      assert Results(ctx, search, keywords, plugins) == head + rest;
      TitlesAppend(head, rest);
      ResultsFollowKeywordOrder(ctx, search, keywords[1..], plugins);
      var ts := Titles(head) + Titles(rest);
      if head != [] {
        assert ts[0] == keyword && ts[1..] == Titles(rest);
      } else {
        assert ts == Titles(rest);
      }
    }
  }

  /** Every listed keyword is one of the keywords searched. */
  lemma TitlesAreKeywords(ctx: Context, search: string, keywords: seq<string>, plugins: map<string, PluginPair>)
    requires forall k <- keywords :: k in plugins
    ensures forall t <- Titles(Results(ctx, search, keywords, plugins)) :: t in keywords
  {
  }

  /** Putting a keyword, or nothing, before a repeat-free list that does not hold it keeps it repeat-free. */
  lemma DistinctCons(keyword: string, head: seq<string>, rest: seq<string>)
    requires head == [] || head == [keyword]
    requires Distinct(rest) && keyword !in rest
    ensures Distinct(head + rest)
  {
  }

  /** No keyword is listed twice. */
  lemma {:induction false} ResultsDistinct(ctx: Context, search: string, keywords: seq<string>,
                                           plugins: map<string, PluginPair>)
    requires forall k <- keywords :: k in plugins
    requires Distinct(keywords)
    ensures Distinct(Titles(Results(ctx, search, keywords, plugins)))
  {
    if keywords != [] {
      var keyword := keywords[0];
      var metadata := plugins[keyword].metadata;
      var head := if Listed(ctx, search, keyword, metadata) then [IndicatorResult(ctx, keyword, metadata)] else [];
      var tail := keywords[1..];
      var rest := Results(ctx, search, tail, plugins);
      assert Results(ctx, search, keywords, plugins) == head + rest;
      TitlesAppend(head, rest);
      assert Distinct(tail);
      ResultsDistinct(ctx, search, tail, plugins);
      TitlesAreKeywords(ctx, search, tail, plugins);
      assert keyword !in tail;
      DistinctCons(keyword, Titles(head), Titles(rest));
    }
  }

  /** The keywords of the enabled plugins, in index order. */
  function EnabledKeywords(keywords: seq<string>, plugins: map<string, PluginPair>): seq<string>
    requires forall k <- keywords :: k in plugins
  {
    if keywords == [] then []
    else
      (if plugins[keywords[0]].metadata.disabled then [] else [keywords[0]])
        + EnabledKeywords(keywords[1..], plugins)
  }

  /** With an empty search the plugin lists every enabled keyword, once each, in index order. */
  lemma {:induction false} EmptySearchListsAllEnabled(ctx: Context, keywords: seq<string>,
                                                      plugins: map<string, PluginPair>)
    requires forall k <- keywords :: k in plugins
    ensures Titles(Results(ctx, "", keywords, plugins)) == EnabledKeywords(keywords, plugins)
  {
    if keywords != [] {
      var keyword := keywords[0];
      var metadata := plugins[keyword].metadata;
      var head := if Listed(ctx, "", keyword, metadata) then [IndicatorResult(ctx, keyword, metadata)] else [];
      var rest := Results(ctx, "", keywords[1..], plugins);
      assert Results(ctx, "", keywords, plugins) == head + rest;
      EmptySearchListsAllEnabled(ctx, keywords[1..], plugins);
      TitlesAppend(head, rest);
    }
  }

  lemma TitlesAppend(a: seq<Result>, b: seq<Result>)
    ensures Titles(a + b) == Titles(a) + Titles(b)
  {
  }

  /**
    Selecting the i-th result of the query puts its keyword and the separator
    into the query box and keeps the window open.
   */
  method SelectResult(plugin: Main, api: PublicApi.PublicAPIInstance, query: Plugin.Query, index: KeywordIndex, i: nat)
      returns (closeWindow: bool)
    requires plugin.context.Some? && index.Valid()
    requires i < |plugin.Query(query, index)|
    modifies api`queryText
    ensures api.queryText == plugin.Query(query, index)[i].title + TermSeparator
    ensures !closeWindow
  {
    var r := plugin.Query(query, index)[i];
    assert r in plugin.Query(query, index);
    closeWindow := PublicApi.RunAction(api, r.action);
  }
}
