/** The body of the commodity table: every reconciled row priced from the
    gold or silver spot record. */
module Table {
  import opened Wrappers
  import opened Commodities
  import opened Catalog
  import opened Pricing

  predicate AllHaveMetal(rows: seq<Commodity>) {
    forall i :: 0 <= i < |rows| ==> rows[i].metal.Some?
  }

  /** The `.map` over the reconciled rows that computes each row's prices. */
  function PriceRows(rows: seq<Commodity>, gold: Spot, silver: Spot): (ps: seq<Prices>)
    requires AllHaveMetal(rows)
    ensures |ps| == |rows|
  {
    seq(|rows|, i requires 0 <= i < |rows| => PriceOf(rows[i], gold, silver))
  }

  /** Every reconciled row has a metal, so every row can be priced. */
  lemma ReconciledRowsHaveMetal(list: seq<Commodity>)
    requires ReconcileOf(list).Success?
    ensures AllHaveMetal(ReconcileOf(list).value)
  {
    ReconcileShape(list);
    var rows := ReconcileOf(list).value;
    forall i | 0 <= i < |rows|
      ensures rows[i].metal.Some?
    {
      assert KeyOf(rows[i]).Some?;
    }
  }

  /** With no feed every row is priced at its charges alone, when it has no
      premium. */
  lemma NoFeedPricesAtCharges(rows: seq<Commodity>, i: nat)
    requires AllHaveMetal(rows) && i < |rows|
    requires OrZero(rows[i].buyPremium) == 0.0 && OrZero(rows[i].sellPremium) == 0.0
    ensures PriceRows(rows, Spot(None, None), Spot(None, None))[i] ==
            Prices(OrZero(rows[i].buyCharge), OrZero(rows[i].sellCharge))
  {
    ZeroQuoteGivesCharges(rows[i]);
  }

  /** With no catalog and no feed every row is priced at zero. */
  lemma NoDataPricesAtZero(i: nat)
    requires i < |Defaults|
    ensures ReconcileOf([]) == Success(Defaults) && AllHaveMetal(Defaults)
    ensures PriceRows(Defaults, Spot(None, None), Spot(None, None))[i] == Prices(0.0, 0.0)
  {
    ReconcileEmpty();
    DefaultsShape();
    NoFeedPricesAtCharges(Defaults, i);
  }
}
