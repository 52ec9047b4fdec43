/** The stock-detail selector: the `all_stocks` dict built from the Top-10
    list, its default choice, and the chart requested for that choice. */
module Selector {
  import opened Wrappers
  import opened Stocks
  import opened OrderedDict
  import opened Symbols

  /** Text shown for a stock in the selector: the code, then `" - "`, then
      the name. */
  function DisplayKey(s: Stock): (k: string)
    ensures |k| == |s.code| + 3 + |s.name|
    ensures k[..|s.code|] == s.code
    ensures k[|s.code|..|s.code| + 3] == " - "
    ensures k[|s.code| + 3..] == s.name
  {
    s.code + " - " + s.name
  }

  /** The `(display key, stock)` pairs the dict is built from, in list order. */
  function Entries(top10: seq<Stock>): (ps: seq<(string, Stock)>)
    ensures |ps| == |top10|
    ensures forall i :: 0 <= i < |top10| ==> ps[i] == (DisplayKey(top10[i]), top10[i])
  {
    seq(|top10|, i requires 0 <= i < |top10| => (DisplayKey(top10[i]), top10[i]))
  }

  /** The display keys of the list, in order, duplicates included. */
  function Labels(top10: seq<Stock>): (ls: seq<string>)
    ensures |ls| == |top10|
    ensures forall i :: 0 <= i < |top10| ==> ls[i] == DisplayKey(top10[i])
  {
    Firsts(Entries(top10))
  }

  /** `all_stocks`: display key to stock, built by the dict comprehension. */
  function AllStocks(top10: seq<Stock>): (d: Dict<string, Stock>)
    ensures Valid(d)
  {
    FromPairs(Entries(top10))
  }

  /** The selector's options: the dict's keys in insertion order. */
  function Options(top10: seq<Stock>): (opts: seq<string>)
    ensures |opts| <= |top10|
  {
    AllStocks(top10).keys
  }

  /** `index=0`: the first option, and no choice when there are no options. */
  function DefaultChoice(options: seq<string>): (c: Option<string>)
    ensures c.Some? <==> |options| > 0
    ensures c.Some? ==> c.value == options[0]
  {
    if |options| == 0 then None else Some(options[0])
  }

  /** The chart shown below the selector: the qualified symbol and the
      stock it belongs to. */
  datatype ChartRequest = ChartRequest(symbol: string, stock: Stock)

  /** Options are exactly the display keys of the list, each listed once,
      in the order in which each first appears in the list. */
  lemma OptionsAreFirstOccurrences(top10: seq<Stock>)
    ensures forall k :: k in Options(top10) <==> k in Labels(top10)
    ensures forall i, j :: 0 <= i < j < |Options(top10)| ==> Options(top10)[i] != Options(top10)[j]
    ensures forall i, j :: 0 <= i < j < |Options(top10)| ==>
      FirstIndex(Labels(top10), Options(top10)[i]) < FirstIndex(Labels(top10), Options(top10)[j])
  {
    FromPairsKeySet(Entries(top10));
    FromPairsOrder(Entries(top10));
  }

  /** Looking a key up gives the last stock of the list that displays as it. */
  lemma LookupGivesLastStock(top10: seq<Stock>)
    ensures forall k :: k in AllStocks(top10).entries ==>
      k in Labels(top10) && AllStocks(top10).entries[k] == top10[LastIndex(Labels(top10), k)]
  {
    FromPairsLookup(Entries(top10));
  }

  /** With pairwise different display keys, there is one option per stock,
      in list order. */
  lemma OptionsWhenKeysDiffer(top10: seq<Stock>)
    requires forall i, j :: 0 <= i < j < |top10| ==> DisplayKey(top10[i]) != DisplayKey(top10[j])
    ensures Options(top10) == Labels(top10)
  {
    FromPairsDistinct(Entries(top10));
  }

  /** The first option is the display key of the first stock. */
  lemma FirstOptionIsFirstStock(top10: seq<Stock>)
    requires |top10| > 0
    ensures |Options(top10)| > 0 && Options(top10)[0] == DisplayKey(top10[0])
  {
    OptionsAreFirstOccurrences(top10);
    assert Labels(top10)[0] in Labels(top10);
    assert FirstIndex(Labels(top10), Options(top10)[0]) == 0;
  }

  /** The chart for the selector's current choice: the chosen key is looked
      up in `all_stocks` and the stock's code resolved; no chart when nothing
      is chosen. The chart is for the last stock that displays as the key. */
  function ChartFor(top10: seq<Stock>, choice: Option<string>): (c: Option<ChartRequest>)
    requires choice.Some? ==> choice.value in Options(top10)
    ensures c.Some? <==> choice.Some?
    ensures c.Some? ==> choice.value in Labels(top10)
    ensures c.Some? ==>
      && c.value.stock == top10[LastIndex(Labels(top10), choice.value)]
      && c.value.symbol == TradingViewSymbol(c.value.stock.code)
  {
    match choice
    case None => None
    case Some(key) =>
      OptionsAreFirstOccurrences(top10);
      LookupGivesLastStock(top10);
      var s := AllStocks(top10).entries[key];
      Some(ChartRequest(TradingViewSymbol(s.code), s))
  }

  /** The chart shown on first load, for the option at `index=0`: present
      exactly when the list is non-empty, and for the last stock that
      displays like the first one, under its resolved symbol. */
  function DetailChart(top10: seq<Stock>): (c: Option<ChartRequest>)
    ensures c.Some? <==> |top10| > 0
    ensures c.Some? ==> DisplayKey(top10[0]) in Labels(top10)
    ensures c.Some? ==>
      && c.value.stock == top10[LastIndex(Labels(top10), DisplayKey(top10[0]))]
      && c.value.symbol == TradingViewSymbol(c.value.stock.code)
  {
    if |top10| > 0 then FirstOptionIsFirstStock(top10); ChartFor(top10, DefaultChoice(Options(top10)))
    else ChartFor(top10, DefaultChoice(Options(top10)))
  }

  /** When no later stock displays like the first, the chart is for the
      first stock of the list. */
  lemma DetailChartOfFirst(top10: seq<Stock>)
    requires |top10| > 0
    requires forall j :: 0 < j < |top10| ==> DisplayKey(top10[j]) != DisplayKey(top10[0])
    ensures DetailChart(top10) == Some(ChartRequest(TradingViewSymbol(top10[0].code), top10[0]))
  {
    assert LastIndex(Labels(top10), DisplayKey(top10[0])) == 0;
  }

  /** Display keys can collide: `"600000 - a"` with name `"b"` and `"600000"`
      with name `"a - b"` both display as `"600000 - a - b"`, so the dict
      holds one option, mapped to the second stock. */
  lemma CollidingKeysKeepLaterStock()
    ensures AllStocks([Stock("600000 - a", "b"), Stock("600000", "a - b")])
      == Dict(["600000 - a - b"], map["600000 - a - b" := Stock("600000", "a - b")])
  {
    var s0, s1 := Stock("600000 - a", "b"), Stock("600000", "a - b");
    var k := "600000 - a - b";
    assert DisplayKey(s0) == k;
    assert DisplayKey(s1) == k;
    var ps := Entries([s0, s1]);
    assert ps[..1] == [(k, s0)];
    assert ps[..1][..0] == [];
    assert FromPairs(ps[..1]) == Dict([k], map[k := s0]);
  }

  /** For the colliding pair above the chart is for the second stock. */
  lemma CollidingKeysShowLaterStock()
    ensures DetailChart([Stock("600000 - a", "b"), Stock("600000", "a - b")])
      == Some(ChartRequest("SSE:600000", Stock("600000", "a - b")))
  {
    var s1 := Stock("600000", "a - b");
    var t := [Stock("600000 - a", "b"), s1];
    CollidingKeysKeepLaterStock();
    assert TradingViewSymbol(s1.code) == "SSE:600000" by {
      assert "600000"[..3] == "600";
      ResolverByBoard("600000");
    }
    assert DefaultChoice(AllStocks(t).keys) == Some("600000 - a - b");
  }
}
