/** The premium price table: each plan's premium with a chosen profit
    percentage and 5% GST on top, in whole rupees. */
module PriceTable {
  import opened Wrappers

  /** `GST_RATE`, in percent. */
  const GstRate := 5

  /** `Math.round` on an exact rational: the nearest integer, halves rounded
      up. */
  function JsRound(x: real): (r: int)
    ensures r as real - 0.5 <= x < r as real + 0.5
  {
    (x + 0.5).Floor
  }

  /** Rounding an integer gives it back. */
  lemma RoundOfInteger(n: int)
    ensures JsRound(n as real) == n
  {
  }

  /** An entry of `data`. */
  datatype Item = Item(coverage: string, insurancePremium: real)

  /** A rendered row: coverage, the premium as given, the premium with the
      profit, its GST, and the final price. */
  datatype Row = Row(coverage: string, insurancePremium: real, totalPremium: int, gst: int, finalPrice: int)

  /** The profit on a rounded premium at `pct` percent, itself rounded. */
  function Profit(premium: int, pct: real): int {
    JsRound(premium as real * (pct / 100.0))
  }

  /** The row for one item: the premium is rounded, the profit added, GST
      taken on that total and rounded, and added again. */
  function PriceRow(item: Item, pct: real): (r: Row)
    ensures r.coverage == item.coverage && r.insurancePremium == item.insurancePremium
    ensures r.totalPremium == JsRound(item.insurancePremium) + Profit(JsRound(item.insurancePremium), pct)
    ensures (r.gst as real - 0.5) * 100.0 <= r.totalPremium as real * GstRate as real
    ensures r.totalPremium as real * GstRate as real < (r.gst as real + 0.5) * 100.0
    ensures r.finalPrice == r.totalPremium + r.gst
  {
    var premium := JsRound(item.insurancePremium);
    var total := premium + Profit(premium, pct);
    var gst := JsRound((total * GstRate) as real / 100.0);
    Row(item.coverage, item.insurancePremium, total, gst, total + gst)
  }

  /** `data.map(...)`: one row per item, in the items' order. */
  function PriceRows(items: seq<Item>, pct: real): (r: seq<Row>)
    ensures |r| == |items|
    ensures forall i :: 0 <= i < |items| ==> r[i] == PriceRow(items[i], pct)
  {
    if items == [] then [] else [PriceRow(items[0], pct)] + PriceRows(items[1..], pct)
  }

  /** No profit leaves the rounded premium; 100% doubles it. */
  lemma ProfitEndpoints(item: Item)
    ensures PriceRow(item, 0.0).totalPremium == JsRound(item.insurancePremium)
    ensures PriceRow(item, 100.0).totalPremium == 2 * JsRound(item.insurancePremium)
  {
    RoundOfInteger(0);
    RoundOfInteger(JsRound(item.insurancePremium));
  }

  /** For a non-negative premium and percentage the prices only grow along
      the row. */
  lemma PricesGrow(item: Item, pct: real)
    requires item.insurancePremium >= 0.0 && pct >= 0.0
    ensures JsRound(item.insurancePremium) <= PriceRow(item, pct).totalPremium <= PriceRow(item, pct).finalPrice
  {
    var premium := JsRound(item.insurancePremium);
    assert premium >= 0;
    assert premium as real * (pct / 100.0) >= 0.0;
  }

  class Table {
    var data: seq<Item>
    var percentage: real
    var finalData: seq<Row>

    /** The table once both effects have run. */
    ghost predicate Valid()
      reads this
    {
      finalData == PriceRows(data, percentage)
    }

    constructor (items: seq<Item>)
      ensures Valid() && data == items && percentage == 100.0
    {
      data := items;
      percentage := 100.0;
      finalData := PriceRows(items, 100.0);
    }

    /** New `data`: the percentage goes back to 100 and the rows are
        recomputed with it. */
    method SetData(items: seq<Item>)
      modifies this
      ensures Valid() && data == items && percentage == 100.0
    {
      data := items;
      percentage := 100.0;
      finalData := PriceRows(items, 100.0);
    }

    /** `handlePercentageChange`, then the effect on `percentage`. */
    method SetPercentage(pct: real)
      modifies this`percentage, this`finalData
      ensures Valid() && percentage == pct
    {
      percentage := pct;
      finalData := PriceRows(data, pct);
    }

    /** What is rendered: nothing for empty data, else the rows. */
    function Rendered(): (r: Option<seq<Row>>)
      reads this
      requires Valid()
      ensures r.None? <==> data == []
      ensures r.Some? ==> |r.value| == |data| && r.value == PriceRows(data, percentage)
    {
      if |data| == 0 then None else Some(finalData)
    }
  }
}
