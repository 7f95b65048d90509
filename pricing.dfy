/** The price formula of the commodity table: quote routing by metal, the
    weight-class multiplier, purity as a fraction, and the buy and sell
    prices of one row. Numbers are exact reals. */
module Pricing {
  import opened Wrappers
  import opened Text
  import opened Commodities

  /** A spot record as the table reads it: `bid` and `ask`, already passed
      through `parseFloat` (`None` for NaN). */
  datatype Spot = Spot(bid: Option<real>, ask: Option<real>)

  datatype BidAsk = BidAsk(bid: real, ask: real)

  datatype Prices = Prices(buy: real, sell: real)

  /** `parseFloat(x) || 0` for an already-parsed `x`. */
  function OrZero(x: Option<real>): real {
    x.GetOr(0.0)
  }

  /** The metals priced from the gold quote. */
  predicate ReadsGold(metal: string) {
    metal == "gold" || metal == "gold kilobar" || metal == "gold ten tola"
  }

  /** `getBidAskValues`: the quote a (lower-cased) metal is priced from. */
  function QuoteFor(metal: string, gold: Spot, silver: Spot): (q: BidAsk)
    ensures ReadsGold(metal) ==> q == BidAsk(OrZero(gold.bid), OrZero(gold.ask))
    ensures metal == "silver" ==> q == BidAsk(OrZero(silver.bid), OrZero(silver.ask))
    ensures !ReadsGold(metal) && metal != "silver" ==> q == BidAsk(0.0, 0.0)
  {
    if ReadsGold(metal) then BidAsk(OrZero(gold.bid), OrZero(gold.ask))
    else if metal == "silver" then BidAsk(OrZero(silver.bid), OrZero(silver.ask))
    else BidAsk(0.0, 0.0)
  }

  /** Routing depends only on the metal: a metal that reads neither quote
      is priced from zero whatever the feed holds, and one that reads a
      quote does not see the other metal's quote. */
  lemma QuoteIndependence(metal: string, gold: Spot, silver: Spot, gold': Spot, silver': Spot)
    ensures ReadsGold(metal) ==> QuoteFor(metal, gold, silver) == QuoteFor(metal, gold, silver')
    ensures metal == "silver" ==> QuoteFor(metal, gold, silver) == QuoteFor(metal, gold', silver)
    ensures !ReadsGold(metal) && metal != "silver" ==>
      QuoteFor(metal, gold, silver) == QuoteFor(metal, gold', silver')
  {
  }

  // ---------------------------------------------------------------------
  // Purity

  function Pow10(d: nat): (r: nat)
    ensures r >= 1
  {
    if d == 0 then 1 else 10 * Pow10(d - 1)
  }

  /** The length of the decimal rendering of `p` (`p.toString().length`). */
  function NumDigits(p: nat): (d: nat)
    ensures d >= 1
    ensures p < Pow10(d)
    ensures p >= 10 ==> Pow10(d - 1) <= p
    ensures p < 10 ==> d == 1
    decreases p
  {
    if p < 10 then 1
    else
      var d' := NumDigits(p / 10);
      assert p / 10 < Pow10(d');
      assert p < 10 * Pow10(d');
      1 + d'
  }

  /** `calculatePurityPower` on the number `parseFloat(purity) || 0`: zero
      gives 1, any other whole number is read as a fraction of the next
      power of ten, so it lies in [0.1, 1). */
  function PurityPower(p: nat): (r: real)
    ensures p == 0 ==> r == 1.0
    ensures p > 0 ==> 0.1 <= r < 1.0
  {
    if p == 0 then 1.0
    else
      var d := NumDigits(p);
      assert 10 * p >= Pow10(d) by {
        if p >= 10 { assert Pow10(d) == 10 * Pow10(d - 1); }
      }
      DivBelowOne(p as real, Pow10(d) as real);
      DivAtLeastTenth(p as real, Pow10(d) as real);
      p as real / Pow10(d) as real
  }

  lemma DivBelowOne(a: real, b: real)
    requires 0.0 < a < b
    ensures a / b < 1.0
  {
    assert b / b == 1.0;
    assert (b - a) / b > 0.0;
    assert (b - a) / b == b / b - a / b;
  }

  lemma DivAtLeastTenth(a: real, b: real)
    requires 0.0 < b <= 10.0 * a
    ensures 0.1 <= a / b
  {
    assert b / b == 1.0;
    assert (10.0 * a) / b >= 1.0;
  }

  function DigitOf(c: char): nat
    requires '0' <= c <= '9'
  {
    c as int - '0' as int
  }

  predicate AllDigits(s: string) {
    forall i :: 0 <= i < |s| ==> '0' <= s[i] <= '9'
  }

  /** The value of a purity token made of decimal digits only; `None` for
      any other token, including the empty one. The value has as many
      digits as the token, less any leading zeros, and ends in the token's
      last digit. */
  function DigitValue(s: string): (v: Option<nat>)
    ensures v.Some? <==> s != [] && AllDigits(s)
    ensures v.Some? ==> v.value < Pow10(|s|)
    ensures v.Some? && s[0] != '0' ==> Pow10(|s| - 1) <= v.value
    ensures v.Some? ==> v.value % 10 == DigitOf(s[|s| - 1])
    decreases |s|
  {
    if s == [] then None
    else if !('0' <= s[|s| - 1] <= '9') then None
    else if |s| == 1 then Some(DigitOf(s[0]))
    else
      var init := s[..|s| - 1];
      assert forall i :: 0 <= i < |init| ==> init[i] == s[i];
      match DigitValue(init)
      case None => None
      case Some(v) =>
        assert Pow10(|s|) == 10 * Pow10(|init|);
        assert init[0] == s[0];
        assert |init| >= 1 ==> Pow10(|init|) == 10 * Pow10(|init| - 1);
        Some(10 * v + DigitOf(s[|s| - 1]))
  }

  /** The positional reading of a digit string, most significant digit
      first: the first digit counts `10^(n-1)` times. */
  function Positional(s: string): (v: nat)
    requires AllDigits(s)
    decreases |s|
  {
    if s == [] then 0 else DigitOf(s[0]) * Pow10(|s| - 1) + Positional(s[1..])
  }

  /** Appending a digit multiplies the positional value by ten and adds
      the digit. */
  lemma {:induction false} PositionalSnoc(s: string, c: char)
    requires AllDigits(s) && '0' <= c <= '9'
    ensures AllDigits(s + [c])
    ensures Positional(s + [c]) == 10 * Positional(s) + DigitOf(c)
    decreases |s|
  {
    var t := s + [c];
    assert forall i :: 0 <= i < |t| ==> t[i] == if i < |s| then s[i] else c;
    if s == [] {
      assert t == [c];
      assert t[1..] == [];
    } else {
      var rest := s[1..];
      assert forall i :: 0 <= i < |rest| ==> rest[i] == s[i + 1];
      assert t[1..] == rest + [c];
      PositionalSnoc(rest, c);
      var d, p := DigitOf(s[0]), Pow10(|s| - 1);
      assert Positional(s) == d * p + Positional(rest);
      assert Positional(t) == d * Pow10(|s|) + Positional(rest + [c]);
      assert Pow10(|s|) == 10 * p;
      ShiftDigit(d, p, Positional(rest), DigitOf(c));
    }
  }

  lemma ShiftDigit(d: int, p: int, r: int, c: int)
    ensures d * (10 * p) + (10 * r + c) == 10 * (d * p + r) + c
  {
  }

  /** `DigitValue` reads a digit token positionally, as `parseFloat` does. */
  lemma {:induction false} DigitValueIsPositional(s: string)
    requires s != [] && AllDigits(s)
    ensures DigitValue(s) == Some(Positional(s))
    decreases |s|
  {
    if |s| == 1 {
      assert s[1..] == [];
    } else {
      var init := s[..|s| - 1];
      assert forall i :: 0 <= i < |init| ==> init[i] == s[i];
      DigitValueIsPositional(init);
      PositionalSnoc(init, s[|s| - 1]);
      assert init + [s[|s| - 1]] == s;
    }
  }

  /** A leading zero is dropped: a digit token starting with "0" has the
      value of the rest of the token. */
  lemma LeadingZeroDropped(s: string)
    requires |s| >= 2 && AllDigits(s) && s[0] == '0'
    ensures DigitValue(s) == DigitValue(s[1..])
  {
    var t := s[1..];
    assert AllDigits(t) by {
      assert forall i :: 0 <= i < |t| ==> t[i] == s[i + 1];
    }
    assert Positional(s) == Positional(t) by {
      assert DigitOf(s[0]) == 0;
    }
    DigitValueIsPositional(s);
    DigitValueIsPositional(t);
  }

  /** `parseFloat(purity) || 0` for a purity token: the token's value when
      it is all digits, and 0 for a token it cannot read. */
  function PurityNumber(token: string): (n: nat)
    ensures token != [] && AllDigits(token) ==> n == Positional(token)
    ensures token != [] && AllDigits(token) ==> n < Pow10(|token|)
    ensures token != [] && AllDigits(token) && token[0] != '0' ==> Pow10(|token| - 1) <= n
    ensures !(token != [] && AllDigits(token)) ==> n == 0
  {
    if token != [] && AllDigits(token) then DigitValueIsPositional(token); DigitValue(token).GetOr(0)
    else DigitValue(token).GetOr(0)
  }

  /** "9999" reads as 0.9999. */
  lemma Purity9999()
    ensures PurityPower(PurityNumber("9999")) == 0.9999
  {
    assert "9999"[..3] == "999" && "999"[..2] == "99" && "99"[..1] == "9";
    assert DigitValue("9999") == Some(9999);
    assert NumDigits(9999) == 4;
  }

  /** "880" reads as 0.88: the digit count, not the fineness, fixes the scale. */
  lemma Purity880()
    ensures PurityPower(PurityNumber("880")) == 0.88
  {
    assert "880"[..2] == "88" && "88"[..1] == "8";
    assert DigitValue("880") == Some(880);
    assert NumDigits(880) == 3;
  }

  /** A leading zero is lost in parsing: "0999" reads as 0.999, not 0.0999. */
  lemma PurityLeadingZero()
    ensures PurityPower(PurityNumber("0999")) == PurityPower(PurityNumber("999")) == 0.999
  {
    assert "0999"[..3] == "099" && "099"[..2] == "09" && "09"[..1] == "0";
    assert "999"[..2] == "99" && "99"[..1] == "9";
    assert DigitValue("0999") == Some(999);
    assert DigitValue("999") == Some(999);
    assert NumDigits(999) == 3;
  }

  /** A token `parseFloat` cannot read gives 1. */
  lemma PurityUnparseable()
    ensures PurityPower(PurityNumber("")) == 1.0
    ensures PurityPower(PurityNumber("k24")) == 1.0
    ensures PurityPower(PurityNumber("undefined")) == 1.0
  {
    assert "k24"[0] == 'k';
    assert DigitValue("undefined") == None;
  }

  // ---------------------------------------------------------------------
  // Weight classes

  /** The weight-class multiplier, 1 for a class the table does not know. */
  function WeightMultiplier(weight: string): (r: real)
    ensures r >= 1.0
  {
    if weight == "GM" then 1.0
    else if weight == "KG" then 1000.0
    else if weight == "TTB" then 116.64
    else if weight == "TOLA" then 11.664
    else if weight == "OZ" then 31.1034768
    else 1.0
  }

  predicate KnownWeight(weight: string) {
    weight in ["GM", "KG", "TTB", "TOLA", "OZ"]
  }

  lemma WeightTable(weight: string)
    ensures weight == "GM" ==> WeightMultiplier(weight) == 1.0
    ensures weight == "KG" ==> WeightMultiplier(weight) == 1000.0
    ensures weight == "TTB" ==> WeightMultiplier(weight) == 116.64
    ensures weight == "TOLA" ==> WeightMultiplier(weight) == 11.664
    ensures weight == "OZ" ==> WeightMultiplier(weight) == 31.1034768
    ensures !KnownWeight(weight) ==> WeightMultiplier(weight) == 1.0
    ensures WeightMultiplier(weight) == 1.0 <==> weight == "GM" || !KnownWeight(weight)
  {
  }

  // ---------------------------------------------------------------------
  // The row price

  const OunceGrams: real := 31.103
  const AedPerUsd: real := 3.674

  /** A spot value per ounce converted to the output currency per gram. */
  function PerGram(value: real): (r: real)
    ensures r * OunceGrams == value * AedPerUsd
    ensures value >= 0.0 ==> r >= 0.0
    ensures value == 0.0 <==> r == 0.0
  {
    value / OunceGrams * AedPerUsd
  }

  /** One side of a row: the converted quote scaled by the weight-class
      multiplier, the unit count and the purity, plus the flat charge. */
  function LinePrice(quotePrice: real, multiplier: real, unit: real, purity: real, charge: real): real {
    quotePrice * multiplier * unit * purity + charge
  }

  /** The buy and sell price of one row priced from quote `q`. Each side
      is exactly its charge when its premium-adjusted quote or the unit
      count is zero, and never below its charge when both are
      non-negative. */
  function PriceRow(c: Commodity, q: BidAsk): (p: Prices)
    ensures q.bid + OrZero(c.buyPremium) == 0.0 || c.unit == 0.0 ==> p.buy == OrZero(c.buyCharge)
    ensures q.ask + OrZero(c.sellPremium) == 0.0 || c.unit == 0.0 ==> p.sell == OrZero(c.sellCharge)
    ensures q.bid + OrZero(c.buyPremium) >= 0.0 && c.unit >= 0.0 ==> p.buy >= OrZero(c.buyCharge)
    ensures q.ask + OrZero(c.sellPremium) >= 0.0 && c.unit >= 0.0 ==> p.sell >= OrZero(c.sellCharge)
  {
    var multiplier := WeightMultiplier(c.weight);
    var purity := PurityPower(PurityNumber(c.purity));
    var buyQuote, sellQuote := PerGram(q.bid + OrZero(c.buyPremium)), PerGram(q.ask + OrZero(c.sellPremium));
    LinePriceFloor(buyQuote, multiplier, c.unit, purity, OrZero(c.buyCharge));
    LinePriceFloor(sellQuote, multiplier, c.unit, purity, OrZero(c.sellCharge));
    Prices(LinePrice(buyQuote, multiplier, c.unit, purity, OrZero(c.buyCharge)),
           LinePrice(sellQuote, multiplier, c.unit, purity, OrZero(c.sellCharge)))
  }

  /** A row of the table: the lower-cased metal picks the quote, so a gold
      metal is priced from the gold bid and ask, silver from the silver
      ones, and any other metal from a zero quote. */
  function PriceOf(c: Commodity, gold: Spot, silver: Spot): (p: Prices)
    requires c.metal.Some?
    ensures var m := ToLower(c.metal.value);
      ReadsGold(m) ==> p == PriceRow(c, BidAsk(OrZero(gold.bid), OrZero(gold.ask)))
    ensures var m := ToLower(c.metal.value);
      m == "silver" ==> p == PriceRow(c, BidAsk(OrZero(silver.bid), OrZero(silver.ask)))
    ensures var m := ToLower(c.metal.value);
      !ReadsGold(m) && m != "silver" ==> p == PriceRow(c, BidAsk(0.0, 0.0))
  {
    PriceRow(c, QuoteFor(ToLower(c.metal.value), gold, silver))
  }

  /** A zero quote price leaves only the charge. */
  lemma LinePriceOfZero(multiplier: real, unit: real, purity: real, charge: real)
    ensures LinePrice(0.0, multiplier, unit, purity, charge) == charge
  {
  }

  /** A side's price before its charge is the quote price times the fine
      weight. */
  lemma LinePriceFactors(x: real, multiplier: real, unit: real, purity: real, charge: real)
    ensures LinePrice(x, multiplier, unit, purity, charge) == x * (multiplier * unit * purity) + charge
  {
  }

  /** Scaling the multiplier or the unit count scales the price before the
      charge by the same factor. */
  lemma LinePriceScales(x: real, multiplier: real, unit: real, purity: real, charge: real, n: real)
    ensures LinePrice(x, n * multiplier, unit, purity, charge) - charge ==
            n * (LinePrice(x, multiplier, unit, purity, charge) - charge)
    ensures LinePrice(x, multiplier, n * unit, purity, charge) - charge ==
            n * (LinePrice(x, multiplier, unit, purity, charge) - charge)
  {
  }

  /** A higher quote price never lowers a side's price when the fine weight
      is non-negative. */
  lemma LinePriceMonotone(x: real, y: real, multiplier: real, unit: real, purity: real, charge: real)
    requires x <= y
    requires multiplier >= 0.0 && unit >= 0.0 && purity >= 0.0
    ensures LinePrice(x, multiplier, unit, purity, charge) <= LinePrice(y, multiplier, unit, purity, charge)
  {
    var w := multiplier * unit * purity;
    assert multiplier * unit >= 0.0;
    assert w >= 0.0;
    LinePriceFactors(x, multiplier, unit, purity, charge);
    LinePriceFactors(y, multiplier, unit, purity, charge);
    assert (y - x) * w >= 0.0;
    assert y * w - x * w == (y - x) * w;
  }

  /** The charge is what remains when the quote or the unit count is zero,
      and a floor when the quote and the factors are non-negative. */
  lemma LinePriceFloor(x: real, multiplier: real, unit: real, purity: real, charge: real)
    requires multiplier >= 0.0 && purity >= 0.0
    ensures x == 0.0 || unit == 0.0 ==> LinePrice(x, multiplier, unit, purity, charge) == charge
    ensures x >= 0.0 && unit >= 0.0 ==> LinePrice(x, multiplier, unit, purity, charge) >= charge
  {
    LinePriceOfZero(multiplier, unit, purity, charge);
    assert x * multiplier * 0.0 * purity == 0.0;
    if x >= 0.0 && unit >= 0.0 {
      LinePriceMonotone(0.0, x, multiplier, unit, purity, charge);
    }
  }

  /** With a zero quote and zero premiums only the charges remain. */
  lemma ZeroQuoteGivesCharges(c: Commodity)
    requires OrZero(c.buyPremium) == 0.0 && OrZero(c.sellPremium) == 0.0
    ensures PriceRow(c, BidAsk(0.0, 0.0)) == Prices(OrZero(c.buyCharge), OrZero(c.sellCharge))
  {
    var m, pp := WeightMultiplier(c.weight), PurityPower(PurityNumber(c.purity));
    assert PerGram(0.0) == 0.0;
    LinePriceOfZero(m, c.unit, pp, OrZero(c.buyCharge));
    LinePriceOfZero(m, c.unit, pp, OrZero(c.sellCharge));
  }

  /** A metal no quote covers is priced at its charges alone, when it has
      no premium. */
  lemma UnmappedMetalGivesCharges(c: Commodity, gold: Spot, silver: Spot)
    requires c.metal.Some?
    requires !ReadsGold(ToLower(c.metal.value)) && ToLower(c.metal.value) != "silver"
    requires OrZero(c.buyPremium) == 0.0 && OrZero(c.sellPremium) == 0.0
    ensures PriceOf(c, gold, silver) == Prices(OrZero(c.buyCharge), OrZero(c.sellCharge))
  {
    ZeroQuoteGivesCharges(c);
  }

  /** A higher bid never lowers the buy price, and a higher ask never lowers
      the sell price, for a non-negative unit. */
  lemma PriceMonotone(c: Commodity, q: BidAsk, q': BidAsk)
    requires c.unit >= 0.0
    requires q.bid <= q'.bid && q.ask <= q'.ask
    ensures PriceRow(c, q).buy <= PriceRow(c, q').buy
    ensures PriceRow(c, q).sell <= PriceRow(c, q').sell
  {
    var m, pp := WeightMultiplier(c.weight), PurityPower(PurityNumber(c.purity));
    LinePriceMonotone(PerGram(q.bid + OrZero(c.buyPremium)), PerGram(q'.bid + OrZero(c.buyPremium)),
                      m, c.unit, pp, OrZero(c.buyCharge));
    LinePriceMonotone(PerGram(q.ask + OrZero(c.sellPremium)), PerGram(q'.ask + OrZero(c.sellPremium)),
                      m, c.unit, pp, OrZero(c.sellCharge));
  }

  /** The same line sold by the kilogram costs a thousand times the gram
      price before charges. */
  lemma KilogramIsThousandGrams(c: Commodity, q: BidAsk)
    requires c.weight == "GM"
    ensures PriceRow(c.(weight := "KG"), q).buy - OrZero(c.buyCharge) == 1000.0 * (PriceRow(c, q).buy - OrZero(c.buyCharge))
    ensures PriceRow(c.(weight := "KG"), q).sell - OrZero(c.sellCharge) == 1000.0 * (PriceRow(c, q).sell - OrZero(c.sellCharge))
  {
    var pp := PurityPower(PurityNumber(c.purity));
    assert 1000.0 * 1.0 == 1000.0;
    LinePriceScales(PerGram(q.bid + OrZero(c.buyPremium)), 1.0, c.unit, pp, OrZero(c.buyCharge), 1000.0);
    LinePriceScales(PerGram(q.ask + OrZero(c.sellPremium)), 1.0, c.unit, pp, OrZero(c.sellCharge), 1000.0);
  }

  /** A gold 9999 gram row with no adjustments, priced from a bid of 2000
      and an ask of 2005, comes to about 236.22 and 236.81. */
  lemma PriceExample()
    ensures var p := PriceRow(Defaults[0], BidAsk(2000.0, 2005.0));
      p.buy == 2000.0 / 31.103 * 3.674 * 0.9999 &&
      236.22 < p.buy < 236.23 && 236.81 < p.sell < 236.82
  {
    Purity9999();
  }
}
