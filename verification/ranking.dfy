/** Rank labels of the Top-3 cards and of the Top-10 table. */
module Ranking {
  import opened Stocks

  /** `enumerate(s, start)`: each element paired with its position,
      counted from `start`. */
  function Enumerate<T>(s: seq<T>, start: int): (r: seq<(int, T)>)
    ensures |r| == |s|
    ensures forall i :: 0 <= i < |s| ==> r[i] == (start + i, s[i])
    decreases |s|
  {
    if |s| == 0 then [] else [(start, s[0])] + Enumerate(s[1..], start + 1)
  }

  /** Badge shown in front of a Top-3 card. */
  datatype Medal = Gold | Silver | Bronze {

    /** Text of the badge as displayed. */
    function Label(): string {
      match this
      case Gold => "[金牌]"
      case Silver => "[银牌]"
      case Bronze => "[铜牌]"
    }
  }

  /** Rank 1 is gold, rank 2 silver, every other rank bronze. */
  function MedalFor(rank: int): (m: Medal)
    ensures m == Gold <==> rank == 1
    ensures m == Silver <==> rank == 2
    ensures m == Bronze <==> rank != 1 && rank != 2
  {
    if rank == 1 then Gold else if rank == 2 then Silver else Bronze
  }

  /** Different medals display different texts, so each rank's badge can
      be told apart on the page. */
  lemma MedalLabelsDistinct(m1: Medal, m2: Medal)
    ensures m1 != m2 <==> m1.Label() != m2.Label()
  {
  }

  /** One Top-3 card: its badge and the stock it shows. */
  datatype Badge = Badge(medal: Medal, stock: Stock)

  /** The Top-3 cards: the list enumerated from 1 and each rank given its
      medal. Only the first card is gold and only the second silver. */
  function Top3Badges(top3: seq<Stock>): (r: seq<Badge>)
    ensures |r| == |top3|
    ensures forall i :: 0 <= i < |r| ==> r[i].stock == top3[i]
    ensures forall i :: 0 <= i < |r| ==> (r[i].medal == Gold <==> i == 0)
    ensures forall i :: 0 <= i < |r| ==> (r[i].medal == Silver <==> i == 1)
    ensures forall i :: 2 <= i < |r| ==> r[i].medal == Bronze
  {
    var ranked := Enumerate(top3, 1);
    seq(|ranked|, i requires 0 <= i < |ranked| => Badge(MedalFor(ranked[i].0), ranked[i].1))
  }

  /** A snapshot with exactly three picks shows gold, silver and bronze
      in that order, and the first badge differs from the other two. */
  lemma ThreePicksMedals(top3: seq<Stock>)
    requires |top3| == 3
    ensures [Top3Badges(top3)[0].medal, Top3Badges(top3)[1].medal, Top3Badges(top3)[2].medal]
      == [Gold, Silver, Bronze]
    ensures Top3Badges(top3)[0].medal.Label() != Top3Badges(top3)[1].medal.Label()
    ensures Top3Badges(top3)[0].medal.Label() != Top3Badges(top3)[2].medal.Label()
  {
  }

  /** One row of the Top-10 table: its index label and the stock. */
  datatype Row = Row(rank: int, stock: Stock)

  /** The Top-10 table: rows in list order, indexed from 1. */
  function RankTable(top10: seq<Stock>): (rows: seq<Row>)
    ensures |rows| == |top10|
    ensures forall i :: 0 <= i < |rows| ==> rows[i] == Row(i + 1, top10[i])
  {
    var ranked := Enumerate(top10, 1);
    seq(|ranked|, i requires 0 <= i < |ranked| => Row(ranked[i].0, ranked[i].1))
  }

  /** The stocks of a table, read top to bottom. */
  function TableStocks(rows: seq<Row>): (r: seq<Stock>)
    ensures |r| == |rows|
    ensures forall i :: 0 <= i < |rows| ==> r[i] == rows[i].stock
  {
    seq(|rows|, i requires 0 <= i < |rows| => rows[i].stock)
  }

  /** The index labels a table shows. */
  function RankLabels(rows: seq<Row>): set<int> {
    set r | r in rows :: r.rank
  }

  /** Reading the table back gives the list it was built from, and its
      index labels are exactly 1 to the list's length. */
  lemma RankTableRoundTrip(top10: seq<Stock>)
    ensures TableStocks(RankTable(top10)) == top10
    ensures forall k :: k in RankLabels(RankTable(top10)) <==> 1 <= k <= |top10|
  {
    var rows := RankTable(top10);
    forall k | 1 <= k <= |top10|
      ensures k in RankLabels(rows)
    {
      assert rows[k - 1] in rows;
    }
  }
}
