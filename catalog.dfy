/** The catalog reconciler (`organizeAndSortCommodities`): the supplied
    commodity list is indexed by key, last entry winning, and the six
    required rows are then filled from that index in their fixed order. */
module Catalog {
  import opened Wrappers
  import opened Text
  import opened Commodities

  const KilobarKey: string := "silver-kilobar"

  /** The lookup key of a supplied entry: `silver-kilobar` for silver sold
      by the "KG" weight, `metal-purity` with the metal lower-cased
      otherwise. `None` when the entry has no metal, where the source's
      `.toLowerCase()` throws. */
  function KeyOf(c: Commodity): (k: Option<string>)
    ensures k.None? <==> c.metal.None?
  {
    match c.metal
    case None => None
    case Some(m) =>
      if ToLower(m) == "silver" && c.weight == "KG" then Some(KilobarKey)
      else Some(ToLower(m) + "-" + c.purity)
  }

  /** The lookup table after the `forEach` has visited every entry of
      `list`; `Failure(j)` when entry `j` is the first without a metal.
      Every entry of the table sits under its own key. */
  ghost function Index(list: seq<Commodity>): (r: Result<map<string, Commodity>, nat>)
    ensures r.Failure? ==> r.error < |list| && list[r.error].metal.None?
    ensures r.Success? ==> forall k :: k in r.value ==> KeyOf(r.value[k]) == Some(k)
    decreases |list|
  {
    if list == [] then Success(map[])
    else
      var last := list[|list| - 1];
      match Index(list[..|list| - 1])
      case Failure(j) => Failure(j)
      case Success(m) =>
        match KeyOf(last)
        case None => Failure(|list| - 1)
        case Some(k) => Success(m[k := last])
  }

  /** One output row: the indexed entry with the required row's label
      forced on, or the required row itself. The row always carries the
      required row's label; every other field is the indexed entry's when
      an entry is stored under the row's id. */
  function Pick(index: map<string, Commodity>, d: Commodity): (p: Commodity)
    ensures p.labelText == d.labelText
    ensures d.id.Some? && d.id.value in index ==> p.(labelText := index[d.id.value].labelText) == index[d.id.value]
    ensures !(d.id.Some? && d.id.value in index) ==> p == d
  {
    if d.id.Some? && d.id.value in index then index[d.id.value].(labelText := d.labelText) else d
  }

  /** The `.map` over the required rows: one row per required row, in
      order, with its label, and row i differs from required row i only
      when the table holds row i's id. */
  function Merge(index: map<string, Commodity>): (r: seq<Commodity>)
    ensures |r| == |Defaults|
    ensures forall i :: 0 <= i < |r| ==> r[i].labelText == Defaults[i].labelText
    ensures forall i :: 0 <= i < |r| ==>
      r[i] == Defaults[i] || (Defaults[i].id.Some? && Defaults[i].id.value in index)
  {
    seq(|Defaults|, i requires 0 <= i < |Defaults| => Pick(index, Defaults[i]))
  }

  /** What `organizeAndSortCommodities` returns for `list`, or the index of
      the entry at which it throws: it throws exactly when some entry lacks
      a metal, and then at the first one; otherwise it gives six rows with
      the required labels. */
  ghost function ReconcileOf(list: seq<Commodity>): (r: Result<seq<Commodity>, nat>)
    ensures r.Failure? <==> exists j :: 0 <= j < |list| && list[j].metal.None?
    ensures r.Failure? ==>
      r.error < |list| && list[r.error].metal.None? &&
      forall j :: 0 <= j < r.error ==> list[j].metal.Some?
    ensures r.Success? ==>
      |r.value| == |Defaults| &&
      forall i :: 0 <= i < |Defaults| ==> r.value[i].labelText == Defaults[i].labelText
  {
    IndexFailure(list);
    match Index(list)
    case Success(m) => Success(Merge(m))
    case Failure(j) => Failure(j)
  }

  /** The reconciler itself: the `forEach` that fills the lookup table in
      place, then the merge. */
  method Reconcile(list: seq<Commodity>) returns (r: Result<seq<Commodity>, nat>)
    ensures r == ReconcileOf(list)
    ensures r.Success? ==> |r.value| == |Defaults|
    ensures r.Failure? ==> r.error < |list| && list[r.error].metal.None?
  {
    var index: map<string, Commodity> := map[];
    var i := 0;
    while i < |list|
      invariant 0 <= i <= |list|
      invariant Index(list[..i]) == Success(index)
    {
      assert list[..i + 1][..i] == list[..i];
      var key := KeyOf(list[i]);
      if key.None? {
        IndexFailure(list[..i + 1]);
        IndexPrefixFailure(list, i + 1);
        return Failure(i);
      }
      index := index[key.value := list[i]];
      i := i + 1;
    }
    assert list[..i] == list;
    r := Success(Merge(index));
  }

  // ---------------------------------------------------------------------
  // The lookup table

  /** The table fails exactly when some entry lacks a metal, and then at
      the first such entry. */
  lemma {:induction false} IndexFailure(list: seq<Commodity>)
    ensures Index(list).Failure? <==> exists j :: 0 <= j < |list| && list[j].metal.None?
    ensures Index(list).Failure? ==>
      var j := Index(list).error;
      j < |list| && list[j].metal.None? && forall j' :: 0 <= j' < j ==> list[j'].metal.Some?
    decreases |list|
  {
    if list != [] {
      var init := list[..|list| - 1];
      IndexFailure(init);
      assert forall j :: 0 <= j < |init| ==> init[j] == list[j];
    }
  }

  /** A failure on a prefix is the failure of the whole list. */
  lemma {:induction false} IndexPrefixFailure(list: seq<Commodity>, n: nat)
    requires n <= |list|
    requires Index(list[..n]).Failure?
    ensures Index(list) == Index(list[..n])
    decreases |list| - n
  {
    if n < |list| {
      assert list[..n + 1][..n] == list[..n];
      IndexPrefixFailure(list, n + 1);
    } else {
      assert list[..n] == list;
    }
  }

  /** Every indexed entry sits under its own key. */
  lemma {:induction false} IndexKeys(list: seq<Commodity>)
    requires Index(list).Success?
    ensures forall k :: k in Index(list).value ==> KeyOf(Index(list).value[k]) == Some(k)
    decreases |list|
  {
    if list != [] {
      IndexKeys(list[..|list| - 1]);
    }
  }

  /** The table holds a key exactly when some entry has that key. */
  lemma {:induction false} IndexDomain(list: seq<Commodity>, k: string)
    requires Index(list).Success?
    ensures k in Index(list).value <==> exists j :: 0 <= j < |list| && KeyOf(list[j]) == Some(k)
    decreases |list|
  {
    if list != [] {
      var init := list[..|list| - 1];
      IndexDomain(init, k);
      assert forall j :: 0 <= j < |init| ==> init[j] == list[j];
    }
  }

  /** Last writer wins: an entry that no later entry shares a key with is
      the one stored under its key. */
  lemma {:induction false} IndexLastWins(list: seq<Commodity>, j: nat)
    requires Index(list).Success?
    requires j < |list|
    requires forall j' :: j < j' < |list| ==> KeyOf(list[j']) != KeyOf(list[j])
    ensures KeyOf(list[j]).Some?
    ensures KeyOf(list[j]).value in Index(list).value
    ensures Index(list).value[KeyOf(list[j]).value] == list[j]
    decreases |list|
  {
    var init := list[..|list| - 1];
    assert Index(init).Success?;
    if j < |list| - 1 {
      assert forall j' :: j < j' < |init| ==> init[j'] == list[j'];
      IndexLastWins(init, j);
    }
  }

  // ---------------------------------------------------------------------
  // Keys

  /** The only '-' in `t` is at position `q`. */
  predicate OnlyDashAt(t: string, q: nat) {
    q < |t| && t[q] == '-' && forall p :: 0 <= p < |t| && t[p] == '-' ==> p == q
  }

  lemma KeySplit(a: string, b: string, t: string, q: nat)
    requires a + "-" + b == t
    requires OnlyDashAt(t, q)
    ensures a == t[..q] && b == t[q + 1..]
  {
    assert t[|a|] == '-';
    assert a == t[..|a|];
    assert b == t[|a| + 1..];
  }

  /** Which supplied entries fill required row `i`: the gold rows take a
      gold entry (in any letter case) with exactly the row's purity; the
      kilobar row takes a silver entry sold by "KG" whatever its purity,
      and also a silver entry whose purity is the text "kilobar". */
  predicate FillsRow(metal: string, purity: string, weight: string, i: nat)
    requires i < |Defaults|
  {
    if i == |Defaults| - 1 then metal == "silver" && (weight == "KG" || purity == "kilobar")
    else metal == "gold" && purity == Defaults[i].purity
  }

  lemma GoldKey(c: Commodity)
    requires c.metal == Some("gold")
    ensures KeyOf(c) == Some("gold-" + c.purity)
  {
    assert ToLower("gold") == "gold";
    assert "gold" + "-" == "gold-";
    assert "gold" + "-" + c.purity == "gold-" + c.purity;
  }

  lemma KeyOfDefaults()
    ensures forall i :: 0 <= i < |Defaults| ==> KeyOf(Defaults[i]) == Some(DefaultIds[i])
  {
    GoldKey(Defaults[0]);
    assert "gold-" + "9999" == DefaultIds[0];
    GoldKey(Defaults[1]);
    assert "gold-" + "880" == DefaultIds[1];
    GoldKey(Defaults[2]);
    assert "gold-" + "875" == DefaultIds[2];
    GoldKey(Defaults[3]);
    assert "gold-" + "775" == DefaultIds[3];
    GoldKey(Defaults[4]);
    assert "gold-" + "750" == DefaultIds[4];
    assert ToLower("silver") == "silver";
  }

  lemma DashesOfDefaultIds()
    ensures forall i :: 0 <= i < |DefaultIds| - 1 ==> OnlyDashAt(DefaultIds[i], 4)
    ensures OnlyDashAt(DefaultIds[|DefaultIds| - 1], 6)
  {
  }

  /** An entry's key is the id of required row `i` exactly when
      `FillsRow` holds of its lower-cased metal, its purity and its weight. */
  lemma KeyMatchesDefault(c: Commodity, i: nat)
    requires i < |Defaults|
    ensures KeyOf(c) == Some(DefaultIds[i]) <==>
      c.metal.Some? && FillsRow(ToLower(c.metal.value), c.purity, c.weight, i)
  {
    DashesOfDefaultIds();
    if c.metal.Some? {
      var m := ToLower(c.metal.value);
      if !(m == "silver" && c.weight == "KG") && m + "-" + c.purity == DefaultIds[i] {
        KeySplit(m, c.purity, DefaultIds[i], if i == 5 then 6 else 4);
      }
    }
  }

  /** Re-labelling an entry does not change its key. */
  lemma KeyIgnoresLabel(c: Commodity, l: Option<string>)
    ensures KeyOf(c.(labelText := l)) == KeyOf(c)
  {
  }

  // ---------------------------------------------------------------------
  // The reconciled list

  /** Six rows, row `i` keyed as required row `i`, labelled as required row
      `i`, whatever was supplied. */
  lemma ReconcileShape(list: seq<Commodity>)
    requires ReconcileOf(list).Success?
    ensures var rows := ReconcileOf(list).value;
      |rows| == |Defaults| &&
      forall i :: 0 <= i < |rows| ==>
        KeyOf(rows[i]) == Some(DefaultIds[i]) && rows[i].labelText == Defaults[i].labelText
  {
    IndexKeys(list);
    KeyOfDefaults();
    DefaultsShape();
  }

  /** The reconciler throws exactly when some entry has no metal, at the
      first such entry. */
  lemma ReconcileFailure(list: seq<Commodity>)
    ensures ReconcileOf(list).Failure? <==> exists j :: 0 <= j < |list| && list[j].metal.None?
    ensures ReconcileOf(list).Failure? ==>
      var j := ReconcileOf(list).error;
      j < |list| && list[j].metal.None? && forall j' :: 0 <= j' < j ==> list[j'].metal.Some?
  {
    IndexFailure(list);
  }

  /** An empty catalog gives the required rows verbatim, every charge and
      premium zero. */
  lemma ReconcileEmpty()
    ensures ReconcileOf([]) == Success(Defaults)
    ensures forall i :: 0 <= i < |Defaults| ==> ChargesZero(ReconcileOf([]).value[i])
  {
    DefaultsShape();
    assert forall i :: 0 <= i < |Defaults| ==> Merge(map[])[i] == Defaults[i];
    assert Merge(map[]) == Defaults;
  }

  /** Row `i` is the last supplied entry with row `i`'s key, every field
      kept except the label, which is the required row's. */
  lemma ReconcileMatched(list: seq<Commodity>, i: nat, j: nat)
    requires ReconcileOf(list).Success?
    requires i < |Defaults| && j < |list|
    requires KeyOf(list[j]) == Some(DefaultIds[i])
    requires forall j' :: j < j' < |list| ==> KeyOf(list[j']) != Some(DefaultIds[i])
    ensures ReconcileOf(list).value[i] == list[j].(labelText := Defaults[i].labelText)
  {
    IndexLastWins(list, j);
    DefaultsShape();
  }

  /** Row `i` is required row `i` verbatim when no entry has its key. */
  lemma ReconcileUnmatched(list: seq<Commodity>, i: nat)
    requires ReconcileOf(list).Success?
    requires i < |Defaults|
    requires forall j :: 0 <= j < |list| ==> KeyOf(list[j]) != Some(DefaultIds[i])
    ensures ReconcileOf(list).value[i] == Defaults[i]
  {
    IndexDomain(list, DefaultIds[i]);
    DefaultsShape();
  }

  /** An entry whose key is no required id appears in no row, under any
      label. */
  lemma UnmatchedDropped(list: seq<Commodity>, j: nat)
    requires ReconcileOf(list).Success?
    requires j < |list|
    requires KeyOf(list[j]).Some? && KeyOf(list[j]).value !in DefaultIds
    ensures forall i :: 0 <= i < |ReconcileOf(list).value| ==>
      ReconcileOf(list).value[i].(labelText := list[j].labelText) != list[j]
  {
    ReconcileShape(list);
    var rows := ReconcileOf(list).value;
    forall i | 0 <= i < |rows|
      ensures rows[i].(labelText := list[j].labelText) != list[j]
    {
      KeyIgnoresLabel(rows[i], list[j].labelText);
    }
  }

  /** Reconciling a reconciled list changes nothing. */
  lemma ReconcileIdempotent(list: seq<Commodity>)
    requires ReconcileOf(list).Success?
    ensures ReconcileOf(ReconcileOf(list).value) == ReconcileOf(list)
  {
    var rows := ReconcileOf(list).value;
    ReconcileShape(list);
    DefaultsShape();
    assert forall j :: 0 <= j < |rows| ==> rows[j].metal.Some?;
    IndexFailure(rows);
    var m' := Index(rows).value;
    forall i | 0 <= i < |Defaults|
      ensures Merge(m')[i] == rows[i]
    {
      assert forall j' :: i < j' < |rows| ==> KeyOf(rows[j']) != KeyOf(rows[i]);
      IndexLastWins(rows, i);
      assert m'[DefaultIds[i]] == rows[i];
    }
    assert Merge(m') == rows;
  }
}
