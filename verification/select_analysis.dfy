/**
 * `SelectAnalysis`: what the analyzer has collected about one SELECT
 * statement — its query, limit, offset, GROUP BY and ORDER BY symbols — and
 * the aliases of its output columns.
 */
module Analyze {
  import opened Wrappers

  /** Java's `int`. */
  newtype Int32 = x: int | -0x8000_0000 <= x < 0x8000_0000

  /** An analyzed expression; its structure is not part of this model. */
  datatype Symbol = Symbol(text: string)

  /** The parsed query; its structure is not part of this model. */
  datatype Query = Query(text: string)

  /** The kind of statement an analysis describes; only SELECT analyses are modelled. */
  datatype AnalysisType = Select | OtherStatement

  /** Thrown when an alias names more than one output column. */
  datatype AmbiguousAliasException = AmbiguousAliasException(alias: string)

  /** How often `name` occurs in `names`. */
  function Count(names: seq<string>, name: string): nat
    decreases |names|
  {
    if names == [] then 0
    else Count(names[..|names| - 1], name) + (if names[|names| - 1] == name then 1 else 0)
  }

  lemma {:induction false} CountPositiveIffPresent(names: seq<string>, name: string)
    ensures Count(names, name) > 0 <==> name in names
  {
    if names != [] {
      var prefix := names[..|names| - 1];
      CountPositiveIffPresent(prefix, name);
      assert names == prefix + [names[|names| - 1]];
    }
  }

  class SelectAnalysis {
    var query: Option<Query>
    var limit: Option<Int32>
    var offset: Int32
    var groupBy: Option<seq<Symbol>>
    var reverseFlags: array?<bool>
    var sortSymbols: Option<seq<Symbol>>
    /** The alias multimap: every alias with the symbols bound to it, in the order they were added. */
    var aliasMap: map<string, seq<Symbol>>
    /** The output column names kept by the `Analysis` base class. */
    var outputNames: seq<string>
    var hasAggregates: bool

    /**
     * The alias multimap and the output names agree: an alias is bound as
     * many times as it occurs among the output names, and a key of the
     * multimap has at least one symbol.
     */
    ghost predicate Valid()
      reads this`aliasMap, this`outputNames
    {
      && (forall alias :: alias in aliasMap ==> |aliasMap[alias]| == Count(outputNames, alias) > 0)
      && (forall k :: 0 <= k < |outputNames| ==> outputNames[k] in aliasMap)
    }

    constructor ()
      ensures Valid()
      ensures query == None && limit == None && offset == 0 && !hasAggregates
      ensures groupBy == None && reverseFlags == null && sortSymbols == None
      ensures aliasMap == map[] && outputNames == []
    {
      query := None;
      limit := None;
      offset := 0;
      groupBy := None;
      reverseFlags := null;
      sortSymbols := None;
      aliasMap := map[];
      outputNames := [];
      hasAggregates := false;
    }

    function Type(): (t: AnalysisType)
      ensures t == Select
    {
      Select
    }

    method SetQuery(query: Option<Query>)
      modifies this`query
      ensures this.query == query
    {
      this.query := query;
    }

    method SetLimit(limit: Option<Int32>)
      modifies this`limit
      ensures this.limit == limit
    {
      this.limit := limit;
    }

    method SetOffset(offset: Int32)
      modifies this`offset
      ensures this.offset == offset
    {
      this.offset := offset;
    }

    method SetGroupBy(groupBy: Option<seq<Symbol>>)
      modifies this`groupBy
      ensures this.groupBy == groupBy
      ensures HasGroupBy() <==> groupBy.Some? && groupBy.value != []
    {
      this.groupBy := groupBy;
    }

    predicate HasGroupBy()
      reads this`groupBy
    {
      groupBy.Some? && |groupBy.value| > 0
    }

    method SetReverseFlags(reverseFlags: array?<bool>)
      modifies this`reverseFlags
      ensures this.reverseFlags == reverseFlags
    {
      this.reverseFlags := reverseFlags;
    }

    method SetSortSymbols(sortSymbols: Option<seq<Symbol>>)
      modifies this`sortSymbols
      ensures this.sortSymbols == sortSymbols
      ensures IsSorted() <==> sortSymbols.Some? && sortSymbols.value != []
    {
      this.sortSymbols := sortSymbols;
    }

    predicate IsSorted()
      reads this`sortSymbols
    {
      sortSymbols.Some? && |sortSymbols.value| > 0
    }

    /** `aliasMap.get(alias)`: the symbols bound to `alias`, none if it was never added. */
    function Symbols(alias: string): seq<Symbol>
      reads this`aliasMap
    {
      if alias in aliasMap then aliasMap[alias] else []
    }

    /** An alias is bound exactly as often as it is an output name. */
    lemma SymbolsMatchOutputNames(alias: string)
      requires Valid()
      ensures |Symbols(alias)| == Count(outputNames, alias)
    {
      CountPositiveIffPresent(outputNames, alias);
    }

    /**
     * `symbolFromAlias(alias)`: no symbol for an alias that is no output
     * name, its one symbol for an alias that is one output name, and an
     * `AmbiguousAliasException` for an alias shared by several output names.
     */
    function SymbolFromAlias(alias: string): (r: Result<Option<Symbol>, AmbiguousAliasException>)
      requires Valid()
      reads this`aliasMap, this`outputNames
      ensures r == Success(None) <==> alias !in outputNames
      ensures r.Failure? <==> Count(outputNames, alias) > 1
      ensures r.Failure? ==> r.error == AmbiguousAliasException(alias)
      ensures r.Success? && r.value.Some? ==> alias in aliasMap && aliasMap[alias] == [r.value.value]
    {
      SymbolsMatchOutputNames(alias);
      CountPositiveIffPresent(outputNames, alias);
      var symbols := Symbols(alias);
      if |symbols| > 1 then Failure(AmbiguousAliasException(alias))
      else if symbols == [] then Success(None)
      else Success(Some(symbols[0]))
    }

    /**
     * `addAlias(alias, symbol)`: appends `alias` to the output names and
     * binds `symbol` to it after whatever it was bound to before. A fresh
     * alias now resolves to `symbol`; one already added becomes ambiguous;
     * every other alias resolves as before.
     */
    method AddAlias(alias: string, symbol: Symbol)
      requires Valid()
      modifies this`aliasMap, this`outputNames
      ensures Valid()
      ensures outputNames == old(outputNames) + [alias]
      ensures aliasMap == old(aliasMap)[alias := old(Symbols(alias)) + [symbol]]
      ensures old(alias !in outputNames) ==> SymbolFromAlias(alias) == Success(Some(symbol))
      ensures old(alias in outputNames) ==> SymbolFromAlias(alias) == Failure(AmbiguousAliasException(alias))
      ensures forall other :: other != alias ==> SymbolFromAlias(other) == old(SymbolFromAlias(other))
    {
      ghost var names := outputNames;
      SymbolsMatchOutputNames(alias);
      CountPositiveIffPresent(names, alias);
      outputNames := outputNames + [alias];
      aliasMap := aliasMap[alias := Symbols(alias) + [symbol]];
      assert outputNames[..|names|] == names;
      assert forall name :: Count(outputNames, name) == Count(names, name) + (if name == alias then 1 else 0);
    }
  }
}
