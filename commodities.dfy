/** The commodity record shared by the catalog, the price formula and the
    row label, and the six rows the table always shows. */
module Commodities {
  import opened Wrappers

  /** One catalog line item. A field the record lacks is `None`; a missing
      `purity` or `weight` is the text "undefined", which is what the
      template literals and the multiplier lookup make of it. Charges and
      premiums are the already-parsed numbers, `None` when `parseFloat`
      gives NaN. */
  datatype Commodity = Commodity(
    id: Option<string>,
    metal: Option<string>,
    purity: string,
    labelText: Option<string>, // the source field `label` (a reserved word here)
    unit: real,
    weight: string,
    buyCharge: Option<real>,
    sellCharge: Option<real>,
    buyPremium: Option<real>,
    sellPremium: Option<real>)

  /** A required row: unit 1 and every charge and premium 0. */
  function Template(id: string, metal: string, purity: string, labelText: Option<string>, weight: string): (c: Commodity)
    ensures c.id == Some(id) && c.metal == Some(metal) && c.purity == purity
    ensures c.labelText == labelText && c.weight == weight && c.unit == 1.0
    ensures ChargesZero(c)
  {
    Commodity(Some(id), Some(metal), purity, labelText, 1.0, weight,
              Some(0.0), Some(0.0), Some(0.0), Some(0.0))
  }

  predicate ChargesZero(c: Commodity) {
    c.buyCharge == Some(0.0) && c.sellCharge == Some(0.0) &&
    c.buyPremium == Some(0.0) && c.sellPremium == Some(0.0)
  }

  /** The ids of the required rows, in display order. */
  const DefaultIds: seq<string> :=
    ["gold-9999", "gold-880", "gold-875", "gold-775", "gold-750", "silver-kilobar"]

  /** The required rows, in display order. */
  const Defaults: seq<Commodity> := [
    Template("gold-9999", "gold", "9999", Some("24k"), "GM"),
    Template("gold-880", "gold", "880", None, "GM"),
    Template("gold-875", "gold", "875", Some("21k"), "GM"),
    Template("gold-775", "gold", "775", None, "GM"),
    Template("gold-750", "gold", "750", Some("18k"), "GM"),
    Template("silver-kilobar", "silver", "999", None, "KG")
  ]

  /** Each required row carries its own id, and the ids are distinct. */
  lemma DefaultsShape()
    ensures |Defaults| == |DefaultIds| == 6
    ensures forall i :: 0 <= i < 6 ==> Defaults[i].id == Some(DefaultIds[i]) && ChargesZero(Defaults[i])
    ensures forall i, j :: 0 <= i < j < 6 ==> DefaultIds[i] != DefaultIds[j]
  {
  }
}
