/** The text of a row's first column (`formatCommodityDisplay`). */
module Display {
  import opened Wrappers
  import opened Text
  import opened Commodities

  /** The separator between "Silver Kilobar" and the unit, kept as the
      source has it (three characters, an en dash mis-decoded). */
  const KilobarSeparator: string := "\U{00E2}\U{20AC}\U{201C}"

  /** The metal name with its first letter upper-cased and the rest
      lower-cased. */
  function MetalName(metal: string): (r: string)
    ensures |r| == |metal|
    ensures metal != [] ==> r[0] == UpperChar(metal[0]) && r[1..] == ToLower(metal[1..])
  {
    if metal == [] then [] else [UpperChar(metal[0])] + ToLower(metal[1..])
  }

  /** A label the `&& label` test lets through: present and non-empty. */
  predicate ShowsLabel(l: Option<string>) {
    l.Some? && l.value != ""
  }

  /** The row text: silver sold by "KG" reads "Silver Kilobar", the
      separator and the unit and weight; any other row reads the metal
      name, " - " and the purity, followed by the label in parentheses for
      gold with a label. `unitText` is the rendering of the unit number,
      which only the kilobar text shows. Text follows the purity exactly
      when the row is gold with a label, and it is that label in
      parentheses. */
  function FormatCommodityDisplay(c: Commodity, unitText: string): (s: string)
    requires c.metal.Some?
    ensures ToLower(c.metal.value) == "silver" && c.weight == "KG" ==>
      s == "Silver Kilobar " + KilobarSeparator + " " + unitText + "KG"
    ensures !(ToLower(c.metal.value) == "silver" && c.weight == "KG") ==>
      var n := |c.metal.value| + 3 + |c.purity|;
      n <= |s| && s[..n] == MetalName(c.metal.value) + " - " + c.purity &&
      (n < |s| <==> ToLower(c.metal.value) == "gold" && ShowsLabel(c.labelText)) &&
      (n < |s| ==> s[n..] == " (" + c.labelText.value + ")")
  {
    var metal := c.metal.value;
    if ToLower(metal) == "silver" && c.weight == "KG" then
      "Silver Kilobar " + KilobarSeparator + " " + unitText + c.weight
    else
      var purityDisplay :=
        if ToLower(metal) == "gold" && ShowsLabel(c.labelText) then c.purity + " (" + c.labelText.value + ")"
        else c.purity;
      MetalName(metal) + " - " + purityDisplay
  }

  /** The row text does not depend on the letter case of the metal. */
  lemma {:induction false} DisplayIgnoresMetalCase(c: Commodity, unitText: string)
    requires c.metal.Some?
    ensures FormatCommodityDisplay(c.(metal := Some(ToLower(c.metal.value))), unitText) ==
            FormatCommodityDisplay(c, unitText)
  {
    var m := c.metal.value;
    ToLowerIdempotent(m);
    if m != [] {
      UpperOfLower(m[0]);
      assert ToLower(m)[1..] == ToLower(m[1..]);
      ToLowerIdempotent(m[1..]);
      assert MetalName(ToLower(m)) == MetalName(m);
    }
  }

  /** Only gold rows show their label. */
  lemma LabelOnlyForGold(c: Commodity, unitText: string, l: Option<string>)
    requires c.metal.Some? && ToLower(c.metal.value) != "gold"
    ensures FormatCommodityDisplay(c.(labelText := l), unitText) == FormatCommodityDisplay(c, unitText)
  {
  }

  lemma GoldName()
    ensures ToLower("gold") == "gold" && MetalName("gold") == "Gold"
  {
    assert ToLower("old") == "old";
  }

  /** A gold row's text when the metal is "gold". */
  lemma GoldDisplay(c: Commodity, unitText: string)
    requires c.metal == Some("gold")
    ensures FormatCommodityDisplay(c, unitText) ==
      if ShowsLabel(c.labelText) then "Gold - " + c.purity + " (" + c.labelText.value + ")"
      else "Gold - " + c.purity
  {
    GoldName();
    assert "Gold" + " - " == "Gold - ";
  }

  /** The gold rows read "Gold - ", the purity and, where the row has a
      karat label, the label in parentheses. One lemma per row keeps each
      proof small. */
  lemma DisplayGold9999()
    ensures FormatCommodityDisplay(Defaults[0], "1") == "Gold - 9999 (24k)"
  {
    GoldDisplay(Defaults[0], "1");
    assert "Gold - " + "9999" + " (" + "24k" + ")" == "Gold - 9999 (24k)";
  }

  lemma DisplayGold880()
    ensures FormatCommodityDisplay(Defaults[1], "1") == "Gold - 880"
  {
    GoldDisplay(Defaults[1], "1");
    assert "Gold - " + "880" == "Gold - 880";
  }

  lemma DisplayGold875()
    ensures FormatCommodityDisplay(Defaults[2], "1") == "Gold - 875 (21k)"
  {
    GoldDisplay(Defaults[2], "1");
    assert "Gold - " + "875" + " (" + "21k" + ")" == "Gold - 875 (21k)";
  }

  lemma DisplayGold775()
    ensures FormatCommodityDisplay(Defaults[3], "1") == "Gold - 775"
  {
    GoldDisplay(Defaults[3], "1");
    assert "Gold - " + "775" == "Gold - 775";
  }

  lemma DisplayGold750()
    ensures FormatCommodityDisplay(Defaults[4], "1") == "Gold - 750 (18k)"
  {
    GoldDisplay(Defaults[4], "1");
    assert "Gold - " + "750" + " (" + "18k" + ")" == "Gold - 750 (18k)";
  }

  /** The kilobar row reads "Silver Kilobar", the separator, the unit and
      "KG". */
  lemma DisplayKilobar()
    ensures FormatCommodityDisplay(Defaults[5], "1") == "Silver Kilobar " + KilobarSeparator + " 1KG"
  {
    assert ToLower("silver") == "silver";
    assert " " + "1" + "KG" == " 1KG";
  }

  /** The texts of the six required rows, with the unit rendered "1". */
  lemma DefaultDisplays()
    ensures FormatCommodityDisplay(Defaults[0], "1") == "Gold - 9999 (24k)"
    ensures FormatCommodityDisplay(Defaults[1], "1") == "Gold - 880"
    ensures FormatCommodityDisplay(Defaults[2], "1") == "Gold - 875 (21k)"
    ensures FormatCommodityDisplay(Defaults[3], "1") == "Gold - 775"
    ensures FormatCommodityDisplay(Defaults[4], "1") == "Gold - 750 (18k)"
    ensures FormatCommodityDisplay(Defaults[5], "1") == "Silver Kilobar " + KilobarSeparator + " 1KG"
  {
    DisplayGold9999();
    DisplayGold880();
    DisplayGold875();
    DisplayGold775();
    DisplayGold750();
    DisplayKilobar();
  }
}
