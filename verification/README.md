# A-share recommendation dashboard — Dafny model

The dashboard (`app.py`, a single-page Streamlit app) shows a daily list of
recommended A-share stocks and an equity curve. Almost all of it is
rendering. This project models the pure mappings the page builds its views
from, and proves what they promise:

- **Symbol resolver** (`get_tradingview_symbol`, module `Symbols`). It turns a
  stock code into the venue-qualified symbol the charting widget takes.
  Codes on the Shanghai boards `600/601/603/605/688` get `SSE:`. Codes on the
  Shenzhen boards `000/001/002/003/300/301` get `SZSE:`. Every other string
  gets `SSE:`, including empty and short ones. The resolver is checked
  against an independent classification by the code's first three
  characters (`ListingVenue`). Its inverse `ParseSymbol` gives back the
  unchanged code.
- **Rank labels** (module `Ranking`). The Top-3 cards are enumerated from 1:
  rank 1 is gold, rank 2 silver, every other rank bronze. The Top-10 table is
  indexed 1..n in list order.
- **Selector** (modules `OrderedDict` and `Selector`). The `all_stocks` dict
  maps the display key `code - name` to its stock. `OrderedDict` models a
  Python dict: keys keep their first-insertion order, and a repeated key
  overwrites the value in place. The user's pick is a parameter of
  `ChartFor`: the chart is requested for the resolved symbol of the stock
  behind the picked key. `DetailChart` is the chart for the default pick,
  option 0.
- **Total return** (module `Returns`): `(last - first) / first * 100` over
  the equity column, computed over exact reals.

`Wrappers` holds the `Option` type and `Stocks` holds the `(code, name)` pair.

An empty `top10` is usually described as a page failure. The model follows
the code instead. The code reaches the chart only through
`if selected_stock_display:` (app.py:151), and a selectbox with no options
yields no choice. So `DetailChart` returns `None` there, and no chart is
shown. What the UI framework itself does with an empty options list is not
part of this model.

## Model

| member | source | states |
|---|---|---|
| Symbols.TradingViewSymbol | app.py:53-60 | the result is `SSE:` or `SZSE:` followed by the input code, unaltered |
| Symbols.StartsWithAnyBoard | app.py:55-57 | `startswith` over a tuple of three-character prefixes holds exactly when the string has at least three characters and its first three are one of the prefixes |
| Symbols.ResolverByBoard | app.py:55-60 | a Shanghai-board code resolves to `SSE:`+code; a Shenzhen-board code resolves to `SZSE:`+code; every other string, including empty and short ones, resolves to `SSE:`+code |
| Symbols.ResolverMatchesVenue | app.py:53-60 | the resolver equals the reference classification by first three characters, for every string |
| Symbols.PrefixListsDisjoint | app.py:55-58 | no code matches both prefix lists, so the order of the two tests never decides the result |
| Symbols.ResolverRoundTrip | app.py:53-60 | splitting the resolved symbol gives back the listing exchange and the unchanged code |
| Symbols.ShanghaiExamples | app.py:55-56 | `600519` and `688981` resolve to `SSE:` symbols |
| Symbols.ShenzhenExamples | app.py:57-58 | `000001` and `300750` resolve to `SZSE:` symbols |
| Symbols.FallbackExamples | app.py:59-60 | `830799`, `60` and the empty string fall back to `SSE:` |
| Ranking.Enumerate | app.py:124 | `enumerate(s, start)` pairs the i-th element with `start + i`, keeping length and order |
| Ranking.MedalFor | app.py:125 | gold exactly for rank 1, silver exactly for rank 2, bronze exactly for every other rank |
| Ranking.MedalLabelsDistinct | app.py:125 | two medals display the same text exactly when they are the same medal |
| Ranking.Top3Badges | app.py:124-125 | one card per Top-3 stock in list order; only the first is gold, only the second silver, every later one bronze |
| Ranking.ThreePicksMedals | app.py:124-125 | three picks show gold, silver, bronze in order, and the first badge's text differs from the other two |
| Ranking.RankTable | app.py:135-136 | one row per Top-10 stock; row i (0-based) carries label i+1 and stock i |
| Ranking.RankTableRoundTrip | app.py:135-136 | reading the table's stocks back gives the list; the labels are exactly 1 to its length |
| OrderedDict.Insert | app.py:144 | a dict assignment keeps keys unique and in step with the map, sets the key's value, and adds at most one key |
| OrderedDict.InsertKeyOrder | app.py:144 | a dict assignment keeps every present key in its place, and appends a new key last; only a new key lengthens the key list |
| OrderedDict.FromPairs | app.py:144 | a dict comprehension yields a valid dict with no more keys than pairs |
| OrderedDict.FromPairsKeySet | app.py:144 | the dict's keys are exactly the pairs' keys |
| OrderedDict.FromPairsOrder | app.py:144 | the dict's keys are ordered by each key's first occurrence among the pairs |
| OrderedDict.FromPairsLookup | app.py:144 | each key maps to the value of the last pair carrying it |
| OrderedDict.FromPairsDistinct | app.py:144 | with pairwise different keys, the keys are the pairs' keys in pair order |
| Selector.DisplayKey | app.py:144 | the display key is the code, then `" - "`, then the name, each unchanged |
| Selector.AllStocks | app.py:144 | `all_stocks` is a valid dict: keys listed once each and exactly the mapped ones |
| Selector.Options | app.py:144-147 | there are never more options than Top-10 stocks |
| Selector.DefaultChoice | app.py:145-149 | with `index=0` the choice is the first option, and there is none exactly when there are no options |
| Selector.OptionsAreFirstOccurrences | app.py:144-147 | options are exactly the display keys, without duplicates, in first-occurrence order |
| Selector.LookupGivesLastStock | app.py:144-152 | looking up a key returns the last Top-10 stock with that display key |
| Selector.OptionsWhenKeysDiffer | app.py:144-147 | with pairwise different display keys there is one option per stock, in list order |
| Selector.FirstOptionIsFirstStock | app.py:144-148 | for a non-empty list the option at index 0 is the display key of `top10[0]` |
| Selector.ChartFor | app.py:151-153 | for any chosen option the chart is for the last Top-10 stock displaying as that option, under that stock's resolved symbol; no chart when nothing is chosen |
| Selector.DetailChart | app.py:145-153 | the chart for the `index=0` choice is shown exactly when `top10` is non-empty; it is for the last stock displaying like the first, under that stock's resolved symbol |
| Selector.DetailChartOfFirst | app.py:144-153 | when no later stock displays like the first, the chart is for `top10[0]` |
| Selector.CollidingKeysKeepLaterStock | app.py:144 | two stocks whose `code - name` texts coincide leave one option, mapped to the later stock |
| Selector.CollidingKeysShowLaterStock | app.py:144-153 | for those two stocks the default chart is the later stock's |
| Returns.TotalReturn | app.py:166 | the return r satisfies last = first * (1 + r/100) |
| Returns.ReturnSign | app.py:166 | for a positive first value the return is 0 iff unchanged, positive iff a gain, negative iff a loss |
| Returns.ReturnExample | app.py:166 | 100 to 110 is a 10 percent return |
| Returns.Summarize | app.py:164-166 | initial is the first row's equity, current the last row's, and they are related by the return; a single row has return 0 |
| Returns.SummaryUsesEndpoints | app.py:164-165 | rows between the first and the last do not change the summary |

## Left out

- Streamlit rendering (`st.markdown`, `st.columns`, `st.metric`, `st.selectbox`, `st.dataframe`, `st.image`, `st.warning`, `st.error`), CSS and layout: UI framework calls with no stateable semantics.
- The Top-1 card (app.py:113-120): rendering of `top1[0]` only.
- `display_tradingview_chart` (app.py:62-92): widget markup for a foreign script. The model only keeps the resolved symbol that is interpolated into it (`ChartRequest.symbol`).
- Plotly figure construction (app.py:177-196): an external charting library.
- Reading and parsing `today.json` and `equity.csv`, date parsing, and the try/except fallbacks for missing or malformed files (app.py:98-101, 159-161, 198-199, 236-239). Parsed data are inputs of the model.
- The literal metric texts `"1.0000"`, `".4f"`, `".2f"` (app.py:170-174). `Summarize` gives the values those metrics are evidently meant to show.
- Returns.TotalReturn: computed over exact reals. Floating-point rounding is not modelled, and neither is a zero first value (division by zero yields inf/nan in floating point) — hence `first != 0`.
- Returns.Summarize: an empty curve raises an unhandled `IndexError` in the source. The model requires a non-empty curve instead.
- The startup `ImportError` path with `exit(1)` (app.py:15-20), page configuration, and the static payment and risk-disclosure panels: environment and static content.
