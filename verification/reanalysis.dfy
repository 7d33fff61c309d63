/** The re-analysis of every product (reanalisar_todos_produtos): for each
    product it brings the weight flags and the dimension flags back in step
    with the product's current measures and counts the products it changed.

    Both groups are given twice: as the code decides when to rewrite
    (`...AsWritten`), and with the decision made on which keys are present,
    which is what the rest of the model uses. */
module Reanalysis {
  import opened Php
  import opened Catalog
  import opened Limits
  import opened WeightValidator
  import opened DimensionValidator

  /** The meta after one group was looked at, and whether it was rewritten. */
  datatype Outcome = Outcome(meta: Meta, changed: bool)

  function Abs(x: real): real {
    if x < 0.0 then -x else x
  }

  /** The number the re-analysis reads from a weight: a decimal comma is
      taken as a point before floatval(). */
  function ReanalysisWeight(php: Runtime, w: string): (f: real)
    ensures ',' !in w ==> f == php.floatval(w)
  {
    php.floatval(ReplaceChar(w, ',', '.'))
  }

  /** The two meta maps hold the same values for the product's given keys. */
  ghost predicate AgreeOn(m1: Meta, m2: Meta, id: ProductId, ks: set<MetaKey>) {
    forall k :: k in ks ==> ((id, k) in m1 <==> (id, k) in m2) && GetMeta(m1, id, k) == GetMeta(m2, id, k)
  }

  lemma SameOutsideAgree(m1: Meta, m2: Meta, ids: set<ProductId>, ks: set<MetaKey>, id: ProductId, ks2: set<MetaKey>)
    requires SameOutside(m1, m2, ids, ks)
    requires id !in ids || ks * ks2 == {}
    ensures AgreeOn(m1, m2, id, ks2)
  {
    forall k | k in ks2
      ensures ((id, k) in m1 <==> (id, k) in m2) && GetMeta(m1, id, k) == GetMeta(m2, id, k)
    {
      if k in ks {
        assert k in ks * ks2;
      }
    }
  }

  // ---------------------------------------------------------------------
  // Weight group

  /** The weight flags agree with the weight: a missing weight has a truthy
      missing flag and no alert; a weight out of range has an alert holding
      it (to within 0.0001) and no missing flag; a weight in range has none
      of the four keys. */
  predicate WeightSettled(php: Runtime, p: Product, b: Bounds, m: Meta, id: ProductId) {
    if FalsyText(p.weight) then
      Truthy(GetMeta(m, id, SemPeso)) && (id, PesoAlerta) !in m && (id, PesoAlertaData) !in m
    else if OutOfRange(ReanalysisWeight(php, p.weight), b) then
      (id, PesoAlerta) in m && Abs(NumberOf(php, GetMeta(m, id, PesoAlerta)) - ReanalysisWeight(php, p.weight)) <= 0.0001
      && (id, SemPeso) !in m && (id, SemPesoData) !in m
    else
      (id, SemPeso) !in m && (id, SemPesoData) !in m && (id, PesoAlerta) !in m && (id, PesoAlertaData) !in m
  }

  lemma WeightSettledFrame(php: Runtime, p: Product, b: Bounds, m1: Meta, m2: Meta, id: ProductId)
    requires AgreeOn(m1, m2, id, WeightKeys)
    ensures WeightSettled(php, p, b, m1, id) == WeightSettled(php, p, b, m2, id)
  {
    assert PesoAlerta in WeightKeys && PesoAlertaData in WeightKeys;
    assert SemPeso in WeightKeys && SemPesoData in WeightKeys;
  }

  /** The missing flag with its date, and no alert. */
  function MissingWeightTarget(m: Meta, id: ProductId, now: int): (r: Meta)
    ensures SameOutside(m, r, {id}, WeightKeys)
    ensures Stored(r, id, SemPeso, Text("1")) && Stored(r, id, SemPesoData, Date(now))
    ensures (id, PesoAlerta) !in r && (id, PesoAlertaData) !in r
  {
    Delete(FlagMissingWeight(m, id, now), id, {PesoAlerta, PesoAlertaData})
  }

  /** The alert with its date, and no missing flag. */
  function WeightAlertTarget(m: Meta, id: ProductId, f: real, now: int): (r: Meta)
    ensures SameOutside(m, r, {id}, WeightKeys)
    ensures Stored(r, id, PesoAlerta, Number(f)) && Stored(r, id, PesoAlertaData, Date(now))
    ensures (id, SemPeso) !in r && (id, SemPesoData) !in r
  {
    Delete(RecordWeightAlert(m, id, f, now), id, {SemPeso, SemPesoData})
  }

  /** The weight group as the code decides: each branch rewrites only when
      the flag it expects is falsy, or (out of range) when the alert differs
      by more than 0.0001, or (missing, in range) when the other flag is
      truthy. Whatever it rewrites ends settled. */
  function ReconcileWeightAsWritten(php: Runtime, p: Product, b: Bounds, m: Meta, id: ProductId, now: int): (r: Outcome)
    ensures SameOutside(m, r.meta, {id}, WeightKeys)
    ensures !r.changed ==> r.meta == m
    ensures r.changed ==> WeightSettled(php, p, b, r.meta, id)
  {
    if FalsyText(p.weight) then
      if !Truthy(GetMeta(m, id, SemPeso)) || Truthy(GetMeta(m, id, PesoAlerta)) then
        Outcome(MissingWeightTarget(m, id, now), true)
      else Outcome(m, false)
    else
      var f := ReanalysisWeight(php, p.weight);
      if f > b.max || f < b.min then
        var t := GetMeta(m, id, PesoAlerta);
        if !Truthy(t) || Abs(NumberOf(php, t) - f) > 0.0001 then
          Outcome(WeightAlertTarget(m, id, f, now), true)
        else Outcome(m, false)
      else if Truthy(GetMeta(m, id, SemPeso)) || Truthy(GetMeta(m, id, PesoAlerta)) then
        Outcome(Delete(m, id, WeightKeys), true)
      else Outcome(m, false)
  }

  /** The weight group deciding on which keys are present: it rewrites
      exactly when the group is not settled, and leaves it settled. */
  function ReconcileWeight(php: Runtime, p: Product, b: Bounds, m: Meta, id: ProductId, now: int): (r: Outcome)
    ensures SameOutside(m, r.meta, {id}, WeightKeys)
    ensures WeightSettled(php, p, b, r.meta, id)
    ensures r.changed <==> !WeightSettled(php, p, b, m, id)
    ensures !r.changed ==> r.meta == m
  {
    if FalsyText(p.weight) then
      if !Truthy(GetMeta(m, id, SemPeso)) || (id, PesoAlerta) in m || (id, PesoAlertaData) in m then
        Outcome(MissingWeightTarget(m, id, now), true)
      else Outcome(m, false)
    else
      var f := ReanalysisWeight(php, p.weight);
      if f > b.max || f < b.min then
        if (id, PesoAlerta) !in m || Abs(NumberOf(php, GetMeta(m, id, PesoAlerta)) - f) > 0.0001
          || (id, SemPeso) in m || (id, SemPesoData) in m then
          Outcome(WeightAlertTarget(m, id, f, now), true)
        else Outcome(m, false)
      else if (id, SemPeso) in m || (id, SemPesoData) in m || (id, PesoAlerta) in m || (id, PesoAlertaData) in m then
        Outcome(Delete(m, id, WeightKeys), true)
      else Outcome(m, false)
  }

  // ---------------------------------------------------------------------
  // Dimension group

  /** The dimension flags agree with the dimensions: with all three missing,
      a truthy missing flag and no alert; with an alert, exactly that alert
      stored and no missing flag; otherwise none of the four keys. */
  predicate DimensionsSettled(php: Runtime, p: Product, l: Limites, m: Meta, id: ProductId) {
    if AllMissing(p) then
      Truthy(GetMeta(m, id, SemDimensoes)) && (id, DimensoesAlerta) !in m && (id, DimensoesAlertaData) !in m
    else if DimensionAlert(php, p, l) != map[] then
      GetMeta(m, id, DimensoesAlerta) == Serialized(DimensionAlert(php, p, l))
      && (id, SemDimensoes) !in m && (id, SemDimensoesData) !in m
    else
      (id, SemDimensoes) !in m && (id, SemDimensoesData) !in m && (id, DimensoesAlerta) !in m && (id, DimensoesAlertaData) !in m
  }

  lemma DimensionsSettledFrame(php: Runtime, p: Product, l: Limites, m1: Meta, m2: Meta, id: ProductId)
    requires AgreeOn(m1, m2, id, DimensionKeys)
    ensures DimensionsSettled(php, p, l, m1, id) == DimensionsSettled(php, p, l, m2, id)
  {
    assert DimensoesAlerta in DimensionKeys && DimensoesAlertaData in DimensionKeys;
    assert SemDimensoes in DimensionKeys && SemDimensoesData in DimensionKeys;
  }

  /** The missing flag with its date, and no alert. */
  function MissingDimensionsTarget(m: Meta, id: ProductId, now: int): (r: Meta)
    ensures SameOutside(m, r, {id}, DimensionKeys)
    ensures Stored(r, id, SemDimensoes, Text("1")) && Stored(r, id, SemDimensoesData, Date(now))
    ensures (id, DimensoesAlerta) !in r && (id, DimensoesAlertaData) !in r
  {
    Delete(FlagMissingDimensions(m, id, now), id, {DimensoesAlerta, DimensoesAlertaData})
  }

  /** The alert with its date, and no missing flag. */
  function DimensionAlertTarget(m: Meta, id: ProductId, a: map<Dim, real>, now: int): (r: Meta)
    ensures SameOutside(m, r, {id}, DimensionKeys)
    ensures Stored(r, id, DimensoesAlerta, Serialized(a)) && Stored(r, id, DimensoesAlertaData, Date(now))
    ensures (id, SemDimensoes) !in r && (id, SemDimensoesData) !in r
  {
    Delete(RecordDimensionAlert(m, id, a, now), id, {SemDimensoes, SemDimensoesData})
  }

  /** The dimension group as the code decides: with an alert it rewrites
      only when the stored alert differs, whatever the missing flag holds. */
  function ReconcileDimensionsAsWritten(php: Runtime, p: Product, l: Limites, m: Meta, id: ProductId, now: int): (r: Outcome)
    ensures SameOutside(m, r.meta, {id}, DimensionKeys)
    ensures !r.changed ==> r.meta == m
    ensures r.changed ==> DimensionsSettled(php, p, l, r.meta, id)
  {
    if AllMissing(p) then
      if !Truthy(GetMeta(m, id, SemDimensoes)) || Truthy(GetMeta(m, id, DimensoesAlerta)) then
        AllMissingMeansNoAlert(php, p, l);
        Outcome(MissingDimensionsTarget(m, id, now), true)
      else Outcome(m, false)
    else
      var a := DimensionAlert(php, p, l);
      if a != map[] then
        if GetMeta(m, id, DimensoesAlerta) != Serialized(a) then
          Outcome(DimensionAlertTarget(m, id, a, now), true)
        else Outcome(m, false)
      else if Truthy(GetMeta(m, id, SemDimensoes)) || Truthy(GetMeta(m, id, DimensoesAlerta)) then
        Outcome(Delete(m, id, DimensionKeys), true)
      else Outcome(m, false)
  }

  /** The dimension group deciding on which keys are present: it rewrites
      exactly when the group is not settled, and leaves it settled. */
  function ReconcileDimensions(php: Runtime, p: Product, l: Limites, m: Meta, id: ProductId, now: int): (r: Outcome)
    ensures SameOutside(m, r.meta, {id}, DimensionKeys)
    ensures DimensionsSettled(php, p, l, r.meta, id)
    ensures r.changed <==> !DimensionsSettled(php, p, l, m, id)
    ensures !r.changed ==> r.meta == m
  {
    if AllMissing(p) then
      if !Truthy(GetMeta(m, id, SemDimensoes)) || (id, DimensoesAlerta) in m || (id, DimensoesAlertaData) in m then
        Outcome(MissingDimensionsTarget(m, id, now), true)
      else Outcome(m, false)
    else
      var a := DimensionAlert(php, p, l);
      if a != map[] then
        if GetMeta(m, id, DimensoesAlerta) != Serialized(a) || (id, SemDimensoes) in m || (id, SemDimensoesData) in m then
          Outcome(DimensionAlertTarget(m, id, a, now), true)
        else Outcome(m, false)
      else if (id, SemDimensoes) in m || (id, SemDimensoesData) in m || (id, DimensoesAlerta) in m || (id, DimensoesAlertaData) in m then
        Outcome(Delete(m, id, DimensionKeys), true)
      else Outcome(m, false)
  }

  // ---------------------------------------------------------------------
  // One product, then every product

  const FlagKeys: set<MetaKey> := WeightKeys + DimensionKeys

  /** Both groups of one product: the weight first, then the dimensions; the
      product counts as changed when either group was rewritten. */
  function ReconcileProduct(php: Runtime, p: Product, b: Bounds, l: Limites, m: Meta, id: ProductId, now: int): (r: Outcome)
    ensures SameOutside(m, r.meta, {id}, FlagKeys)
    ensures WeightSettled(php, p, b, r.meta, id) && DimensionsSettled(php, p, l, r.meta, id)
    ensures r.changed <==> !(WeightSettled(php, p, b, m, id) && DimensionsSettled(php, p, l, m, id))
    ensures !r.changed ==> r.meta == m
  {
    var w := ReconcileWeight(php, p, b, m, id, now);
    var d := ReconcileDimensions(php, p, l, w.meta, id, now);
    SameOutsideAgree(m, w.meta, {id}, WeightKeys, id, DimensionKeys);
    DimensionsSettledFrame(php, p, l, m, w.meta, id);
    SameOutsideAgree(w.meta, d.meta, {id}, DimensionKeys, id, WeightKeys);
    WeightSettledFrame(php, p, b, w.meta, d.meta, id);
    Outcome(d.meta, w.changed || d.changed)
  }

  /** A product counts as changed exactly when its flags differ afterwards. */
  lemma ProductChangedIffDiffers(php: Runtime, p: Product, b: Bounds, l: Limites, m: Meta, id: ProductId, now: int)
    ensures var r := ReconcileProduct(php, p, b, l, m, id, now);
      r.changed <==> r.meta != m
  {
    var r := ReconcileProduct(php, p, b, l, m, id, now);
    if r.meta == m {
      assert WeightSettled(php, p, b, m, id) && DimensionsSettled(php, p, l, m, id);
    }
  }

  /** The meta and the number of changed products after the re-analysis
      went through the listed ids; ids that are no product are skipped. */
  datatype Tally = Tally(meta: Meta, changed: nat)

  function ReanalysisRun(php: Runtime, products: map<ProductId, Product>, ids: seq<ProductId>, b: Bounds, l: Limites, m: Meta, now: int): Tally
    decreases |ids|
  {
    if ids == [] then Tally(m, 0)
    else
      var t := ReanalysisRun(php, products, ids[..|ids| - 1], b, l, m, now);
      var id := ids[|ids| - 1];
      if id !in products then t
      else
        var o := ReconcileProduct(php, products[id], b, l, t.meta, id, now);
        Tally(o.meta, t.changed + if o.changed then 1 else 0)
  }

  /** Every group settled: both groups of every listed product. */
  predicate AllSettled(php: Runtime, products: map<ProductId, Product>, ids: seq<ProductId>, b: Bounds, l: Limites, m: Meta) {
    forall id :: id in ids && id in products ==>
      WeightSettled(php, products[id], b, m, id) && DimensionsSettled(php, products[id], l, m, id)
  }

  /** After the run every listed product has both groups settled, at most
      one change is counted per id, and no other product's flags and no
      other key changed. */
  lemma {:induction false} ReanalysisSettles(php: Runtime, products: map<ProductId, Product>, ids: seq<ProductId>, b: Bounds, l: Limites, m: Meta, now: int)
    ensures var t := ReanalysisRun(php, products, ids, b, l, m, now);
      AllSettled(php, products, ids, b, l, t.meta)
      && t.changed <= |ids|
      && SameOutside(m, t.meta, (set id | id in ids), FlagKeys)
    decreases |ids|
  {
    if ids != [] {
      var init := ids[..|ids| - 1];
      var last := ids[|ids| - 1];
      ReanalysisSettles(php, products, init, b, l, m, now);
      var t := ReanalysisRun(php, products, init, b, l, m, now);
      assert ids == init + [last];
      if last in products {
        var o := ReconcileProduct(php, products[last], b, l, t.meta, last, now);
        forall id | id in ids && id in products
          ensures WeightSettled(php, products[id], b, o.meta, id) && DimensionsSettled(php, products[id], l, o.meta, id)
        {
          if id != last {
            assert id in init;
            SameOutsideAgree(t.meta, o.meta, {last}, FlagKeys, id, WeightKeys);
            SameOutsideAgree(t.meta, o.meta, {last}, FlagKeys, id, DimensionKeys);
            WeightSettledFrame(php, products[id], b, t.meta, o.meta, id);
            DimensionsSettledFrame(php, products[id], l, t.meta, o.meta, id);
          }
        }
      } else {
        forall id | id in ids && id in products
          ensures id in init
        {
        }
      }
    }
  }

  /** A run over settled groups changes nothing and counts nothing. */
  lemma {:induction false} ReanalysisOfSettled(php: Runtime, products: map<ProductId, Product>, ids: seq<ProductId>, b: Bounds, l: Limites, m: Meta, now: int)
    requires AllSettled(php, products, ids, b, l, m)
    ensures ReanalysisRun(php, products, ids, b, l, m, now) == Tally(m, 0)
    decreases |ids|
  {
    if ids != [] {
      var init := ids[..|ids| - 1];
      var last := ids[|ids| - 1];
      assert forall id :: id in init ==> id in ids;
      ReanalysisOfSettled(php, products, init, b, l, m, now);
    }
  }

  /** Running the re-analysis a second time, with the same measures and
      limits, changes nothing and reports no product as changed. */
  lemma ReanalysisIdempotent(php: Runtime, products: map<ProductId, Product>, ids: seq<ProductId>, b: Bounds, l: Limites, m: Meta, now: int, later: int)
    ensures var first := ReanalysisRun(php, products, ids, b, l, m, now);
      ReanalysisRun(php, products, ids, b, l, first.meta, later) == Tally(first.meta, 0)
  {
    var first := ReanalysisRun(php, products, ids, b, l, m, now);
    ReanalysisSettles(php, products, ids, b, l, m, now);
    ReanalysisOfSettled(php, products, ids, b, l, first.meta, later);
  }

  // ---------------------------------------------------------------------
  // The pass as the code runs it

  lemma AgreeOnTransitive(m1: Meta, m2: Meta, m3: Meta, id: ProductId, ks: set<MetaKey>)
    requires AgreeOn(m1, m2, id, ks) && AgreeOn(m2, m3, id, ks)
    ensures AgreeOn(m1, m3, id, ks)
  {
  }

  /** One product as the code handles it: the weight group, then the
      dimension group, both with the code's own tests. Each group ends
      either settled or exactly as it was, and only the product's eight
      flag keys can change. */
  function ReconcileProductAsWritten(php: Runtime, p: Product, b: Bounds, l: Limites, m: Meta, id: ProductId, now: int): (r: Outcome)
    ensures SameOutside(m, r.meta, {id}, FlagKeys)
    ensures !r.changed ==> r.meta == m
    ensures WeightSettled(php, p, b, r.meta, id) || AgreeOn(m, r.meta, id, WeightKeys)
    ensures DimensionsSettled(php, p, l, r.meta, id) || AgreeOn(m, r.meta, id, DimensionKeys)
  {
    var w := ReconcileWeightAsWritten(php, p, b, m, id, now);
    var d := ReconcileDimensionsAsWritten(php, p, l, w.meta, id, now);
    GroupsInTurn(php, p, b, l, m, w, d, id);
    Outcome(d.meta, w.changed || d.changed)
  }

  /** The weight group, then the dimension group, each rewritten to a
      settled state or left as it was: both groups end settled or as they
      were, and nothing outside the product's eight keys changes. */
  lemma GroupsInTurn(php: Runtime, p: Product, b: Bounds, l: Limites, m: Meta, w: Outcome, d: Outcome, id: ProductId)
    requires SameOutside(m, w.meta, {id}, WeightKeys) && (!w.changed ==> w.meta == m)
    requires w.changed ==> WeightSettled(php, p, b, w.meta, id)
    requires SameOutside(w.meta, d.meta, {id}, DimensionKeys) && (!d.changed ==> d.meta == w.meta)
    requires d.changed ==> DimensionsSettled(php, p, l, d.meta, id)
    ensures SameOutside(m, d.meta, {id}, FlagKeys)
    ensures !(w.changed || d.changed) ==> d.meta == m
    ensures WeightSettled(php, p, b, d.meta, id) || AgreeOn(m, d.meta, id, WeightKeys)
    ensures DimensionsSettled(php, p, l, d.meta, id) || AgreeOn(m, d.meta, id, DimensionKeys)
  {
    SameOutsideMoreKeys(m, w.meta, {id}, WeightKeys, FlagKeys);
    SameOutsideMoreKeys(w.meta, d.meta, {id}, DimensionKeys, FlagKeys);
    SameOutsideTransitive(m, w.meta, d.meta, {id}, FlagKeys);
    SameOutsideAgree(m, w.meta, {id}, WeightKeys, id, DimensionKeys);
    SameOutsideAgree(w.meta, d.meta, {id}, DimensionKeys, id, WeightKeys);
    WeightSettledFrame(php, p, b, w.meta, d.meta, id);
    if !w.changed {
      AgreeOnTransitive(m, w.meta, d.meta, id, WeightKeys);
    }
    if !d.changed {
      AgreeOnTransitive(m, w.meta, d.meta, id, DimensionKeys);
    }
  }

  /** The meta and the count reanalisar_todos_produtos() leaves after going
      through the listed ids; ids that are no product are skipped. */
  function ReanalysisRunAsWritten(php: Runtime, products: map<ProductId, Product>, ids: seq<ProductId>, b: Bounds, l: Limites, m: Meta, now: int): Tally
    decreases |ids|
  {
    if ids == [] then Tally(m, 0)
    else
      var t := ReanalysisRunAsWritten(php, products, ids[..|ids| - 1], b, l, m, now);
      var id := ids[|ids| - 1];
      if id !in products then t
      else
        var o := ReconcileProductAsWritten(php, products[id], b, l, t.meta, id, now);
        Tally(o.meta, t.changed + if o.changed then 1 else 0)
  }

  /** Every group of a listed product is settled or as it was before the run. */
  ghost predicate SettledOrKept(php: Runtime, products: map<ProductId, Product>, ids: seq<ProductId>, b: Bounds, l: Limites, m: Meta, r: Meta) {
    forall id :: id in ids && id in products ==>
      (WeightSettled(php, products[id], b, r, id) || AgreeOn(m, r, id, WeightKeys))
      && (DimensionsSettled(php, products[id], l, r, id) || AgreeOn(m, r, id, DimensionKeys))
  }

  /** What the code's pass does guarantee: at most one change per id, no
      unlisted product and no other key touched, and every group of a listed
      product either settled or left as it was. */
  lemma {:induction false} ReanalysisAsWrittenBounds(php: Runtime, products: map<ProductId, Product>, ids: seq<ProductId>, b: Bounds, l: Limites, m: Meta, now: int)
    ensures var t := ReanalysisRunAsWritten(php, products, ids, b, l, m, now);
      t.changed <= |ids|
      && SameOutside(m, t.meta, (set id | id in ids), FlagKeys)
      && SettledOrKept(php, products, ids, b, l, m, t.meta)
    decreases |ids|
  {
    if ids != [] {
      var init := ids[..|ids| - 1];
      var last := ids[|ids| - 1];
      ReanalysisAsWrittenBounds(php, products, init, b, l, m, now);
      var t := ReanalysisRunAsWritten(php, products, init, b, l, m, now);
      assert ids == init + [last];
      if last in products {
        var o := ReconcileProductAsWritten(php, products[last], b, l, t.meta, last, now);
        forall id | id in ids && id in products
          ensures (WeightSettled(php, products[id], b, o.meta, id) || AgreeOn(m, o.meta, id, WeightKeys))
            && (DimensionsSettled(php, products[id], l, o.meta, id) || AgreeOn(m, o.meta, id, DimensionKeys))
        {
          if id != last {
            assert id in init;
            KeptGroupsFrame(php, products[id], b, l, m, t.meta, o.meta, last, id);
          } else {
            if last !in init {
              SameOutsideAgree(m, t.meta, (set id | id in init), FlagKeys, last, WeightKeys);
              SameOutsideAgree(m, t.meta, (set id | id in init), FlagKeys, last, DimensionKeys);
            }
            KeptGroupsStep(php, products[last], b, l, m, t.meta, o.meta, last);
          }
        }
      } else {
        forall id | id in ids && id in products
          ensures id in init
        {
        }
      }
    }
  }

  /** Another product's step leaves a product's groups as they were. */
  lemma KeptGroupsFrame(php: Runtime, p: Product, b: Bounds, l: Limites, m: Meta, t: Meta, o: Meta, other: ProductId, id: ProductId)
    requires id != other && SameOutside(t, o, {other}, FlagKeys)
    requires WeightSettled(php, p, b, t, id) || AgreeOn(m, t, id, WeightKeys)
    requires DimensionsSettled(php, p, l, t, id) || AgreeOn(m, t, id, DimensionKeys)
    ensures WeightSettled(php, p, b, o, id) || AgreeOn(m, o, id, WeightKeys)
    ensures DimensionsSettled(php, p, l, o, id) || AgreeOn(m, o, id, DimensionKeys)
  {
    SameOutsideAgree(t, o, {other}, FlagKeys, id, WeightKeys);
    SameOutsideAgree(t, o, {other}, FlagKeys, id, DimensionKeys);
    WeightSettledFrame(php, p, b, t, o, id);
    DimensionsSettledFrame(php, p, l, t, o, id);
    if AgreeOn(m, t, id, WeightKeys) {
      AgreeOnTransitive(m, t, o, id, WeightKeys);
    }
    if AgreeOn(m, t, id, DimensionKeys) {
      AgreeOnTransitive(m, t, o, id, DimensionKeys);
    }
  }

  /** The product's own step: each group is settled by it, or kept as it
      was before, which was settled or as it was at the start. */
  lemma KeptGroupsStep(php: Runtime, p: Product, b: Bounds, l: Limites, m: Meta, t: Meta, o: Meta, id: ProductId)
    requires WeightSettled(php, p, b, o, id) || AgreeOn(t, o, id, WeightKeys)
    requires DimensionsSettled(php, p, l, o, id) || AgreeOn(t, o, id, DimensionKeys)
    requires WeightSettled(php, p, b, t, id) || AgreeOn(m, t, id, WeightKeys)
    requires DimensionsSettled(php, p, l, t, id) || AgreeOn(m, t, id, DimensionKeys)
    ensures WeightSettled(php, p, b, o, id) || AgreeOn(m, o, id, WeightKeys)
    ensures DimensionsSettled(php, p, l, o, id) || AgreeOn(m, o, id, DimensionKeys)
  {
    if !WeightSettled(php, p, b, o, id) {
      WeightSettledFrame(php, p, b, t, o, id);
      AgreeOnTransitive(m, t, o, id, WeightKeys);
    }
    if !DimensionsSettled(php, p, l, o, id) {
      DimensionsSettledFrame(php, p, l, t, o, id);
      AgreeOnTransitive(m, t, o, id, DimensionKeys);
    }
  }

  // ---------------------------------------------------------------------
  // The save hooks and the re-analysis

  /** After both weight hooks ran on a product save, a present weight
      without a decimal comma has its group settled. A missing weight is
      settled only when the product had no alert before: the hooks set the
      missing flag but keep an old alert. */
  lemma WeightHooksSettle(php: Runtime, opts: Options, products: map<ProductId, Product>, e: SaveEvent, m: Meta, now: int)
    requires IsProductSave(e) && e.canEdit && e.postId in products
    requires ',' !in products[e.postId].weight
    ensures var r := WeightHooksEffect(php, opts, products, e, m, now);
      var id := e.postId;
      var p := products[id];
      var b := WeightBounds(php, opts);
      (!FalsyText(p.weight) ==> WeightSettled(php, p, b, r, id))
      && (FalsyText(p.weight) ==> (WeightSettled(php, p, b, r, id) <==> (id, PesoAlerta) !in m && (id, PesoAlertaData) !in m))
  {
    var id := e.postId;
    WeightHooksOutcome(php, opts, products, e, m, now);
    if FalsyText(products[id].weight) {
      var m1 := SaveWeightEffect(php, opts, products, e, m, now);
      assert m1 == FlagMissingWeight(m, id, now);
      assert ((id, PesoAlerta) in m1 <==> (id, PesoAlerta) in m) && ((id, PesoAlertaData) in m1 <==> (id, PesoAlertaData) in m);
    }
  }

  /** After both dimension hooks ran on a product save, the dimension group
      is settled. */
  lemma DimensionHooksSettle(php: Runtime, opts: Options, products: map<ProductId, Product>, e: SaveEvent, m: Meta, now: int)
    requires IsProductSave(e) && e.canEdit && e.postId in products
    ensures DimensionsSettled(php, products[e.postId], DimensionLimits(php, opts), DimensionHooksEffect(php, opts, products, e, m, now), e.postId)
  {
    DimensionHooksOutcome(php, opts, products, e, m, now);
  }

  // ---------------------------------------------------------------------
  // Where the code as written falls short

  /** A product with a weight of 25 above the default maximum of 20, whose
      alert already holds 25 but which still has the missing flag: the code
      sees a matching alert and rewrites nothing, so the missing flag stays
      beside the alert. The corrected group rewrites it. */
  lemma StaleMissingFlagBesideAlert(php: Runtime, id: ProductId, now: int)
    requires php.floatval("25") == 25.0
    ensures var p := Product("25", "", "", "");
      var b := Bounds(0.01, 20.0);
      var m := map[(id, SemPeso) := Text("1"), (id, PesoAlerta) := Number(25.0)];
      ReconcileWeightAsWritten(php, p, b, m, id, now) == Outcome(m, false)
      && !WeightSettled(php, p, b, m, id)
      && ReconcileWeight(php, p, b, m, id, now).changed
  {
    assert ',' !in "25";
  }

  /** The same for the dimensions: a width of 150 above the default maximum
      of 100, the alert already stored, and the missing flag still there. */
  lemma StaleMissingFlagBesideDimensionAlert(php: Runtime, id: ProductId, now: int)
    requires php.floatval("150") == 150.0
    ensures var p := Product("", "150", "", "");
      var l := Limites(Bounds(0.0, 100.0), Bounds(0.0, 100.0), Bounds(0.0, 100.0));
      var m := map[(id, SemDimensoes) := Text("1"), (id, DimensoesAlerta) := Serialized(map[Largura := 150.0])];
      ReconcileDimensionsAsWritten(php, p, l, m, id, now) == Outcome(m, false)
      && !DimensionsSettled(php, p, l, m, id)
      && ReconcileDimensions(php, p, l, m, id, now).changed
  {
    var p := Product("", "150", "", "");
    var l := Limites(Bounds(0.0, 100.0), Bounds(0.0, 100.0), Bounds(0.0, 100.0));
    var a := DimensionAlert(php, p, l);
    assert DimAbnormal(php, p, l, Largura);
    assert !DimAbnormal(php, p, l, Altura) && !DimAbnormal(php, p, l, Comprimento);
    assert a == map[Largura := 150.0] by {
      forall d ensures d in a <==> d == Largura {
        if d == Altura || d == Comprimento {
          assert FalsyText(DimText(p, d));
        }
      }
    }
  }

  /** A weight of "0.0" is below the default minimum of 0.01. The alert the
      code writes holds 0, which reads back as the falsy "0", so the next
      run takes the alert for absent and rewrites it again: the product is
      counted as changed on every run. The corrected group settles it once. */
  lemma ZeroWeightAlertNeverSettles(php: Runtime, id: ProductId, m: Meta, now: int, later: int)
    requires php.floatval("0.0") == 0.0
    requires (id, PesoAlerta) !in m
    ensures var p := Product("0.0", "", "", "");
      var b := Bounds(0.01, 20.0);
      var first := ReconcileWeightAsWritten(php, p, b, m, id, now);
      first.changed && Stored(first.meta, id, PesoAlerta, Number(0.0))
      && ReconcileWeightAsWritten(php, p, b, first.meta, id, later).changed
      && !ReconcileWeight(php, p, b, ReconcileWeight(php, p, b, m, id, now).meta, id, later).changed
  {
    assert ',' !in "0.0";
  }

  /** A pass over one listed product is that product's step. */
  lemma RunOfOne(php: Runtime, products: map<ProductId, Product>, id: ProductId, b: Bounds, l: Limites, m: Meta, now: int)
    requires id in products
    ensures var o := ReconcileProductAsWritten(php, products[id], b, l, m, id, now);
      ReanalysisRunAsWritten(php, products, [id], b, l, m, now) == Tally(o.meta, if o.changed then 1 else 0)
  {
    assert [id][..0] == [];
  }

  /** With weight "0.0" below 0.01 and a falsy alert, the code's weight
      group writes an alert of 0. */
  lemma ZeroWeightAlertWritten(php: Runtime, m: Meta, id: ProductId, now: int)
    requires php.floatval("0.0") == 0.0
    requires !Truthy(GetMeta(m, id, PesoAlerta))
    ensures var w := ReconcileWeightAsWritten(php, Product("0.0", "", "", ""), Bounds(0.01, 20.0), m, id, now);
      w.changed && Stored(w.meta, id, PesoAlerta, Number(0.0))
  {
    assert ',' !in "0.0";
  }

  /** With weight "0.0" below 0.01 and a falsy alert, the code's product step
      rewrites the alert to 0 and counts the product as changed. */
  lemma ZeroWeightStep(php: Runtime, l: Limites, m: Meta, id: ProductId, now: int)
    requires php.floatval("0.0") == 0.0
    requires !Truthy(GetMeta(m, id, PesoAlerta))
    ensures var o := ReconcileProductAsWritten(php, Product("0.0", "", "", ""), Bounds(0.01, 20.0), l, m, id, now);
      o.changed && Stored(o.meta, id, PesoAlerta, Number(0.0))
  {
    var p := Product("0.0", "", "", "");
    var b := Bounds(0.01, 20.0);
    ZeroWeightAlertWritten(php, m, id, now);
    var w := ReconcileWeightAsWritten(php, p, b, m, id, now);
    var d := ReconcileDimensionsAsWritten(php, p, l, w.meta, id, now);
    assert ReconcileProductAsWritten(php, p, b, l, m, id, now) == Outcome(d.meta, w.changed || d.changed);
    assert PesoAlerta !in DimensionKeys;
  }

  /** Over a whole pass: a product with weight "0.0" is counted as changed
      by a second run of the code's pass as well, while a second corrected
      pass counts nothing. */
  lemma ZeroWeightCountedOnEveryRun(php: Runtime, l: Limites, id: ProductId, now: int, later: int)
    requires php.floatval("0.0") == 0.0
    ensures var products := map[id := Product("0.0", "", "", "")];
      var b := Bounds(0.01, 20.0);
      var first := ReanalysisRunAsWritten(php, products, [id], b, l, map[], now);
      var second := ReanalysisRunAsWritten(php, products, [id], b, l, first.meta, later);
      first.changed == 1 && second.changed == 1
      && ReanalysisRun(php, products, [id], b, l, ReanalysisRun(php, products, [id], b, l, map[], now).meta, later).changed == 0
  {
    var products := map[id := Product("0.0", "", "", "")];
    var b := Bounds(0.01, 20.0);
    ZeroWeightStep(php, l, map[], id, now);
    RunOfOne(php, products, id, b, l, map[], now);
    var first := ReanalysisRunAsWritten(php, products, [id], b, l, map[], now);
    ZeroWeightStep(php, l, first.meta, id, later);
    RunOfOne(php, products, id, b, l, first.meta, later);
    ReanalysisIdempotent(php, products, [id], b, l, map[], now, later);
  }

  /** An alert holding 0 beside the missing flag of a product whose weight
      is now missing is never removed: the code reads the alert as falsy. */
  lemma ZeroAlertKeptWhenWeightMissing(php: Runtime, b: Bounds, id: ProductId, now: int)
    ensures var p := Product("", "", "", "");
      var m := map[(id, SemPeso) := Text("1"), (id, PesoAlerta) := Number(0.0)];
      ReconcileWeightAsWritten(php, p, b, m, id, now) == Outcome(m, false)
      && !WeightSettled(php, p, b, m, id)
      && ReconcileWeight(php, p, b, m, id, now).changed
  {
  }
}
