/** The weight validator (DW_Verifica_Peso_Validator): the notice shown
    before a product is saved, and the two save_post_product hooks that keep
    the weight flags in step with the product's `_weight`. */
module WeightValidator {
  import opened Php
  import opened Catalog
  import opened Limits

  /** get_post_meta($id, '_weight', true): '' when there is no such product. */
  function WeightText(products: map<ProductId, Product>, id: ProductId): string {
    if id in products then products[id].weight else ""
  }

  /** registrar_produto_sem_peso(): the flag '1' and its date. */
  function FlagMissingWeight(m: Meta, id: ProductId, now: int): (r: Meta)
    ensures SameOutside(m, r, {id}, {SemPeso, SemPesoData})
    ensures Stored(r, id, SemPeso, Text("1")) && Stored(r, id, SemPesoData, Date(now))
  {
    Put(Put(m, id, SemPeso, Text("1")), id, SemPesoData, Date(now))
  }

  /** registrar_alerta(): the abnormal weight and its date. */
  function RecordWeightAlert(m: Meta, id: ProductId, peso: real, now: int): (r: Meta)
    ensures SameOutside(m, r, {id}, {PesoAlerta, PesoAlertaData})
    ensures Stored(r, id, PesoAlerta, Number(peso)) && Stored(r, id, PesoAlertaData, Date(now))
  {
    Put(Put(m, id, PesoAlerta, Number(peso)), id, PesoAlertaData, Date(now))
  }

  /** What verificar_peso_ao_salvar() does to the meta. */
  function SaveWeightEffect(php: Runtime, opts: Options, products: map<ProductId, Product>, e: SaveEvent, m: Meta, now: int): (r: Meta)
    ensures SameOutside(m, r, {e.postId}, WeightKeys)
    ensures !IsProductSave(e) || !e.canEdit ==> r == m
    ensures IsProductSave(e) && e.canEdit ==>
      var id := e.postId;
      match Classify(php, WeightText(products, id), WeightBounds(php, opts))
      case Missing =>
        Stored(r, id, SemPeso, Text("1")) && Stored(r, id, SemPesoData, Date(now))
        && GetMeta(r, id, PesoAlerta) == GetMeta(m, id, PesoAlerta)
        && GetMeta(r, id, PesoAlertaData) == GetMeta(m, id, PesoAlertaData)
      case Abnormal(v) =>
        Stored(r, id, PesoAlerta, Number(v)) && Stored(r, id, PesoAlertaData, Date(now))
        && OutOfRange(v, WeightBounds(php, opts))
        && GetMeta(r, id, SemPeso) == GetMeta(m, id, SemPeso)
        && GetMeta(r, id, SemPesoData) == GetMeta(m, id, SemPesoData)
      case InRange(_) =>
        (id, PesoAlerta) !in r && (id, PesoAlertaData) !in r && (id, SemPeso) !in r
        && GetMeta(r, id, SemPesoData) == GetMeta(m, id, SemPesoData)
  {
    if !IsProductSave(e) || !e.canEdit then m
    else
      var id := e.postId;
      match Classify(php, WeightText(products, id), WeightBounds(php, opts))
      case Missing => FlagMissingWeight(m, id, now)
      case Abnormal(v) => RecordWeightAlert(m, id, v, now)
      case InRange(_) => Delete(m, id, {PesoAlerta, PesoAlertaData, SemPeso})
  }

  /** What verificar_produto_sem_peso() does to the meta: the missing flag
      exists afterwards exactly when the weight is missing. */
  function MissingWeightEffect(products: map<ProductId, Product>, e: SaveEvent, m: Meta, now: int): (r: Meta)
    ensures SameOutside(m, r, {e.postId}, {SemPeso, SemPesoData})
    ensures !IsProductSave(e) ==> r == m
    ensures IsProductSave(e) ==>
      ((e.postId, SemPeso) in r <==> FalsyText(WeightText(products, e.postId)))
      && ((e.postId, SemPesoData) in r <==> FalsyText(WeightText(products, e.postId)))
    ensures IsProductSave(e) && FalsyText(WeightText(products, e.postId)) ==>
      Stored(r, e.postId, SemPeso, Text("1")) && Stored(r, e.postId, SemPesoData, Date(now))
  {
    if !IsProductSave(e) then m
    else if FalsyText(WeightText(products, e.postId)) then FlagMissingWeight(m, e.postId, now)
    else Delete(m, e.postId, {SemPeso, SemPesoData})
  }

  /** The notice validar_peso_antes_salvar() queues for a product, if any. */
  function WeightNotices(php: Runtime, p: Product, b: Bounds): (ns: seq<Notice>)
    ensures FalsyText(p.weight) <==> ns == [SemPesoNotice]
    ensures ns == [] <==> Classify(php, p.weight, b).InRange?
    ensures Classify(php, p.weight, b).Abnormal? <==> ns == [PesoAnormalNotice(php.floatval(p.weight))]
  {
    match Classify(php, p.weight, b)
    case Missing => [SemPesoNotice]
    case Abnormal(v) => [PesoAnormalNotice(v)]
    case InRange(_) => []
  }

  class PesoValidator {
    const site: Site
    var pesoMaximo: real
    var pesoMinimo: real

    /** The bounds currently loaded in the fields. */
    function Loaded(): Bounds
      reads this
    {
      Bounds(pesoMinimo, pesoMaximo)
    }

    constructor (site: Site)
      ensures this.site == site
      ensures Loaded() == WeightBounds(site.php, site.options)
    {
      this.site := site;
      pesoMaximo := 20.0;
      pesoMinimo := 0.01;
      new;
      CarregarConfiguracoes();
    }

    /** carregar_configuracoes(): reloads both bounds from the options. */
    method CarregarConfiguracoes()
      modifies this`pesoMaximo, this`pesoMinimo
      ensures Loaded() == WeightBounds(site.php, site.options)
    {
      pesoMaximo := FloatOption(site.php, site.options, "dw_peso_maximo", 20.0);
      pesoMinimo := FloatOption(site.php, site.options, "dw_peso_minimo", 0.01);
    }

    /** get_peso_maximo(). */
    method GetPesoMaximo() returns (r: real)
      modifies this`pesoMaximo, this`pesoMinimo
      ensures Loaded() == WeightBounds(site.php, site.options) && r == Loaded().max
    {
      CarregarConfiguracoes();
      r := pesoMaximo;
    }

    /** get_peso_minimo(). */
    method GetPesoMinimo() returns (r: real)
      modifies this`pesoMaximo, this`pesoMinimo
      ensures Loaded() == WeightBounds(site.php, site.options) && r == Loaded().min
    {
      CarregarConfiguracoes();
      r := pesoMinimo;
    }

    /** validar_peso_antes_salvar(): hands the product back untouched and
        only queues a notice; None stands for an argument that is not a product. */
    method ValidarPesoAntesSalvar(product: Option<Product>) returns (r: Option<Product>)
      modifies this`pesoMaximo, this`pesoMinimo, site`notices
      ensures r == product
      ensures product.None? ==> site.notices == old(site.notices) && Loaded() == old(Loaded())
      ensures product.Some? && FalsyText(product.value.weight) ==>
        site.notices == old(site.notices) + [SemPesoNotice] && Loaded() == old(Loaded())
      ensures product.Some? && !FalsyText(product.value.weight) ==>
        Loaded() == WeightBounds(site.php, site.options)
        && site.notices == old(site.notices) + WeightNotices(site.php, product.value, Loaded())
    {
      if product.None? {
        return product;
      }
      var peso := product.value.weight;
      if FalsyText(peso) {
        site.AddNotice(SemPesoNotice);
        return product;
      }
      var pesoFloat := site.php.floatval(peso);
      CarregarConfiguracoes();
      if pesoFloat > pesoMaximo || pesoFloat < pesoMinimo {
        site.AddNotice(PesoAnormalNotice(pesoFloat));
      }
      return product;
    }

    /** verificar_peso_ao_salvar(). */
    method VerificarPesoAoSalvar(e: SaveEvent, now: int)
      modifies this`pesoMaximo, this`pesoMinimo, site`meta
      ensures site.meta == SaveWeightEffect(site.php, site.options, site.products, e, old(site.meta), now)
      ensures IsProductSave(e) && e.canEdit ==> Loaded() == WeightBounds(site.php, site.options)
      ensures !(IsProductSave(e) && e.canEdit) ==> Loaded() == old(Loaded())
    {
      if e.doingAutosave || e.isRevision || e.postType != "product" || !e.canEdit {
        return;
      }
      CarregarConfiguracoes();
      var peso := WeightText(site.products, e.postId);
      if FalsyText(peso) {
        RegistrarProdutoSemPeso(e.postId, now);
        return;
      }
      var pesoFloat := site.php.floatval(peso);
      if pesoFloat > pesoMaximo || pesoFloat < pesoMinimo {
        RegistrarAlerta(e.postId, pesoFloat, now);
      } else {
        site.DeletePostMeta(e.postId, {PesoAlerta, PesoAlertaData, SemPeso});
      }
    }

    /** verificar_produto_sem_peso(): no permission check, no reload. */
    method VerificarProdutoSemPeso(e: SaveEvent, now: int)
      modifies site`meta
      ensures site.meta == MissingWeightEffect(site.products, e, old(site.meta), now)
    {
      if e.doingAutosave || e.isRevision || e.postType != "product" {
        return;
      }
      var peso := WeightText(site.products, e.postId);
      if FalsyText(peso) {
        RegistrarProdutoSemPeso(e.postId, now);
      } else {
        site.DeletePostMeta(e.postId, {SemPeso, SemPesoData});
      }
    }

    /** registrar_alerta(). */
    method RegistrarAlerta(id: ProductId, peso: real, now: int)
      modifies site`meta
      ensures site.meta == RecordWeightAlert(old(site.meta), id, peso, now)
    {
      site.UpdatePostMeta(id, PesoAlerta, Number(peso));
      site.UpdatePostMeta(id, PesoAlertaData, Date(now));
    }

    /** registrar_produto_sem_peso(). */
    method RegistrarProdutoSemPeso(id: ProductId, now: int)
      modifies site`meta
      ensures site.meta == FlagMissingWeight(old(site.meta), id, now)
    {
      site.UpdatePostMeta(id, SemPeso, Text("1"));
      site.UpdatePostMeta(id, SemPesoData, Date(now));
    }
  }

  /** Both save hooks, in the order they are registered. */
  function WeightHooksEffect(php: Runtime, opts: Options, products: map<ProductId, Product>, e: SaveEvent, m: Meta, now: int): Meta {
    MissingWeightEffect(products, e, SaveWeightEffect(php, opts, products, e, m, now), now)
  }

  /** After both hooks ran on a product save the user may edit: a missing
      weight has its flag and keeps whatever alert it had; an abnormal weight
      has its alert and no missing flag; a weight in range has neither flag. */
  lemma WeightHooksOutcome(php: Runtime, opts: Options, products: map<ProductId, Product>, e: SaveEvent, m: Meta, now: int)
    requires IsProductSave(e) && e.canEdit
    ensures var r := WeightHooksEffect(php, opts, products, e, m, now);
      var id := e.postId;
      SameOutside(m, r, {id}, WeightKeys)
      && match Classify(php, WeightText(products, id), WeightBounds(php, opts))
        case Missing =>
          GetMeta(r, id, SemPeso) == Text("1")
          && GetMeta(r, id, PesoAlerta) == GetMeta(m, id, PesoAlerta)
        case Abnormal(v) =>
          GetMeta(r, id, PesoAlerta) == Number(v)
          && (id, SemPeso) !in r && (id, SemPesoData) !in r
        case InRange(_) =>
          (id, PesoAlerta) !in r && (id, PesoAlertaData) !in r
          && (id, SemPeso) !in r && (id, SemPesoData) !in r
  {
    var m1 := SaveWeightEffect(php, opts, products, e, m, now);
    var r := MissingWeightEffect(products, e, m1, now);
    assert SameOutside(m1, r, {e.postId}, WeightKeys);
  }
}
