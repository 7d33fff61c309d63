/** The range test the plugin applies to a weight or a dimension, the
    bounds it reads from the options, and what it derives from a product's
    measures: the dimension alert and the list of missing measures. */
module Limits {
  import opened Php
  import opened Catalog

  /** A configured [min, max] pair. */
  datatype Bounds = Bounds(min: real, max: real)

  /** The plugin's test `v > max || v < min`: both bounds count as in range. */
  predicate OutOfRange(v: real, b: Bounds) {
    v > b.max || v < b.min
  }

  /** What the plugin concludes about one measure. */
  datatype Verdict = Missing | InRange(value: real) | Abnormal(value: real)

  /** The verdict for a value that is present. */
  function Judge(v: real, b: Bounds): (r: Verdict)
    ensures !r.Missing? && r.value == v
    ensures r.InRange? <==> b.min <= v <= b.max
    ensures b.min <= b.max && (v == b.min || v == b.max) ==> r.InRange?
  {
    if OutOfRange(v, b) then Abnormal(v) else InRange(v)
  }

  /** The verdict for a measure's text: a falsy text ('' or '0') is missing,
      anything else is converted with floatval() and judged. */
  function Classify(php: Runtime, text: string, b: Bounds): (r: Verdict)
    ensures r.Missing? <==> FalsyText(text)
    ensures r.InRange? <==> !FalsyText(text) && b.min <= php.floatval(text) <= b.max
    ensures r.Abnormal? ==> OutOfRange(php.floatval(text), b) && r.value == php.floatval(text)
  {
    if FalsyText(text) then Missing else Judge(php.floatval(text), b)
  }

  /** The weight bounds `dw_peso_minimo` / `dw_peso_maximo`, defaulting to 0.01 and 20. */
  function WeightBounds(php: Runtime, opts: Options): (b: Bounds)
    ensures "dw_peso_minimo" !in opts ==> b.min == 0.01
    ensures "dw_peso_maximo" !in opts ==> b.max == 20.0
    ensures "dw_peso_minimo" in opts && opts["dw_peso_minimo"].NumberOption? ==> b.min == opts["dw_peso_minimo"].r
    ensures "dw_peso_maximo" in opts && opts["dw_peso_maximo"].NumberOption? ==> b.max == opts["dw_peso_maximo"].r
  {
    Bounds(FloatOption(php, opts, "dw_peso_minimo", 0.01), FloatOption(php, opts, "dw_peso_maximo", 20.0))
  }

  /** The three dimension bounds. */
  datatype Limites = Limites(largura: Bounds, altura: Bounds, comprimento: Bounds) {
    function Of(d: Dim): Bounds {
      match d
      case Largura => largura
      case Altura => altura
      case Comprimento => comprimento
    }
  }

  /** The option holding one bound of one dimension, e.g. `dw_dimensao_altura_max`. */
  function DimOption(d: Dim, upper: bool): string {
    match d
    case Largura => if upper then "dw_dimensao_largura_max" else "dw_dimensao_largura_min"
    case Altura => if upper then "dw_dimensao_altura_max" else "dw_dimensao_altura_min"
    case Comprimento => if upper then "dw_dimensao_comprimento_max" else "dw_dimensao_comprimento_min"
  }

  /** The six dimension options are six different names, none of them a
      weight option. */
  lemma DimOptionsDistinct()
    ensures forall d1, u1, d2, u2 :: DimOption(d1, u1) == DimOption(d2, u2) ==> d1 == d2 && u1 == u2
    ensures forall d, u :: DimOption(d, u)[..8] == "dw_dimen"
  {
  }

  /** The dimension bounds read from the options, defaulting to 0 and 100. */
  function DimensionLimits(php: Runtime, opts: Options): (l: Limites)
    ensures forall d :: l.Of(d).min == FloatOption(php, opts, DimOption(d, false), 0.0)
    ensures forall d :: l.Of(d).max == FloatOption(php, opts, DimOption(d, true), 100.0)
    ensures forall d :: DimOption(d, false) !in opts && DimOption(d, true) !in opts ==> l.Of(d) == Bounds(0.0, 100.0)
  {
    Limites(
      Bounds(FloatOption(php, opts, DimOption(Largura, false), 0.0), FloatOption(php, opts, DimOption(Largura, true), 100.0)),
      Bounds(FloatOption(php, opts, DimOption(Altura, false), 0.0), FloatOption(php, opts, DimOption(Altura, true), 100.0)),
      Bounds(FloatOption(php, opts, DimOption(Comprimento, false), 0.0), FloatOption(php, opts, DimOption(Comprimento, true), 100.0)))
  }

  /** Whether a product's dimension d is present and outside its own bounds. */
  predicate DimAbnormal(php: Runtime, p: Product, l: Limites, d: Dim) {
    Classify(php, DimText(p, d), l.Of(d)).Abnormal?
  }

  /** The dimension alert (`$dados_alerta`): exactly the dimensions that are
      present and outside their bounds, each with its offending value. */
  function DimensionAlert(php: Runtime, p: Product, l: Limites): (a: map<Dim, real>)
    ensures forall d :: d in a <==> DimAbnormal(php, p, l, d)
    ensures forall d :: d in a ==> a[d] == php.floatval(DimText(p, d)) && OutOfRange(a[d], l.Of(d))
    ensures forall d :: FalsyText(DimText(p, d)) ==> d !in a
  {
    map d: Dim | d in {Largura, Altura, Comprimento} && DimAbnormal(php, p, l, d) :: php.floatval(DimText(p, d))
  }

  /** One test of the alert: dimension d is added when it is abnormal. */
  function AlertStep(php: Runtime, p: Product, l: Limites, a: map<Dim, real>, d: Dim): map<Dim, real> {
    if DimAbnormal(php, p, l, d) then a[d := php.floatval(DimText(p, d))] else a
  }

  /** The alert is what the three tests build, one dimension after the other. */
  lemma DimensionAlertBySteps(php: Runtime, p: Product, l: Limites)
    ensures DimensionAlert(php, p, l)
      == AlertStep(php, p, l, AlertStep(php, p, l, AlertStep(php, p, l, map[], Largura), Altura), Comprimento)
  {
    var a := DimensionAlert(php, p, l);
    var s := AlertStep(php, p, l, AlertStep(php, p, l, AlertStep(php, p, l, map[], Largura), Altura), Comprimento);
    forall d ensures (d in a <==> d in s) && (d in a ==> a[d] == s[d]) {
      match d
      case Largura =>
      case Altura =>
      case Comprimento =>
    }
    assert a.Keys == s.Keys;
  }

  /** The position of a dimension in the order Largura, Altura, Comprimento. */
  function Rank(d: Dim): nat {
    match d
    case Largura => 0
    case Altura => 1
    case Comprimento => 2
  }

  /** The list is in the order Largura, Altura, Comprimento, each at most once. */
  predicate InDimOrder(ds: seq<Dim>) {
    forall i, j :: 0 <= i < j < |ds| ==> Rank(ds[i]) < Rank(ds[j])
  }

  /** The missing measures (`$medidas_faltando`), in the order Largura,
      Altura, Comprimento. */
  function MissingDims(p: Product): (ds: seq<Dim>)
    ensures forall d :: d in ds <==> FalsyText(DimText(p, d))
    ensures InDimOrder(ds)
  {
    var ds := (if FalsyText(p.width) then [Largura] else [])
      + (if FalsyText(p.height) then [Altura] else [])
      + (if FalsyText(p.length) then [Comprimento] else []);
    assert forall d: Dim :: (Rank(d) == 0 && d == Largura) || (Rank(d) == 1 && d == Altura) || (Rank(d) == 2 && d == Comprimento);
    ds
  }

  /** The entries of an alert, in the order Largura, Altura, Comprimento:
      applied to the dimension alert, the out-of-range measures with their
      values (`$problemas`). */
  function Entries(a: map<Dim, real>): (ps: seq<(Dim, real)>)
    ensures ps == [] <==> a == map[]
  {
    var ps := (if Largura in a then [(Largura, a[Largura])] else [])
      + (if Altura in a then [(Altura, a[Altura])] else [])
      + (if Comprimento in a then [(Comprimento, a[Comprimento])] else []);
    assert a != map[] ==> ps != [] by {
      if a != map[] {
        var d :| d in a;
        if d == Largura {
          assert ps[0] == (Largura, a[Largura]);
        } else if d == Altura {
        } else {
          assert d == Comprimento;
        }
      }
    }
    ps
  }

  /** The entries pair exactly the alert's dimensions with their values,
      each dimension before the ones that follow it. */
  lemma EntriesExact(a: map<Dim, real>)
    ensures forall d, v :: (d, v) in Entries(a) <==> d in a && v == a[d]
    ensures forall i, j :: 0 <= i < j < |Entries(a)| ==> Rank(Entries(a)[i].0) < Rank(Entries(a)[j].0)
  {
    var ps := Entries(a);
    forall d, v ensures (d, v) in ps <==> d in a && v == a[d] {
      if d == Largura {
      } else if d == Altura {
      } else {
        assert d == Comprimento;
      }
    }
    assert forall d: Dim :: (Rank(d) == 0 && d == Largura) || (Rank(d) == 1 && d == Altura) || (Rank(d) == 2 && d == Comprimento);
  }

  /** All three dimensions are missing (`$sem_dimensoes`). */
  predicate AllMissing(p: Product) {
    FalsyText(p.width) && FalsyText(p.height) && FalsyText(p.length)
  }

  /** A product without any dimension has no dimension alert, and its
      missing list names all three dimensions. */
  lemma AllMissingMeansNoAlert(php: Runtime, p: Product, l: Limites)
    requires AllMissing(p)
    ensures DimensionAlert(php, p, l) == map[]
    ensures MissingDims(p) == AllDims
  {
    var a := DimensionAlert(php, p, l);
    forall d | true ensures d !in a {
      assert FalsyText(DimText(p, d));
    }
    assert a.Keys == {};
  }

  /** Three missing measures means all are missing, and only then. */
  lemma {:induction false} AllMissingIffThreeMissing(p: Product)
    ensures AllMissing(p) <==> |MissingDims(p)| == 3
  {
    var ds := MissingDims(p);
    if |ds| == 3 {
      assert Rank(ds[0]) < Rank(ds[1]) < Rank(ds[2]);
      assert ds == AllDims by {
        assert Rank(ds[0]) == 0 && Rank(ds[1]) == 1 && Rank(ds[2]) == 2;
      }
      assert Largura in ds && Altura in ds && Comprimento in ds;
    }
  }
}
