/** The dimension validator (DW_Verifica_Peso_Validator_Dimensoes): the
    notices shown before a product is saved, and the two save_post_product
    hooks that keep the dimension flags in step with width, height and length. */
module DimensionValidator {
  import opened Php
  import opened Catalog
  import opened Limits
  import opened Email

  /** registrar_alerta(): the serialized alert and its date. */
  function RecordDimensionAlert(m: Meta, id: ProductId, alert: map<Dim, real>, now: int): (r: Meta)
    ensures SameOutside(m, r, {id}, {DimensoesAlerta, DimensoesAlertaData})
    ensures Stored(r, id, DimensoesAlerta, Serialized(alert)) && Stored(r, id, DimensoesAlertaData, Date(now))
  {
    Put(Put(m, id, DimensoesAlerta, Serialized(alert)), id, DimensoesAlertaData, Date(now))
  }

  /** registrar_produto_sem_dimensoes(): the flag '1' and its date. */
  function FlagMissingDimensions(m: Meta, id: ProductId, now: int): (r: Meta)
    ensures SameOutside(m, r, {id}, {SemDimensoes, SemDimensoesData})
    ensures Stored(r, id, SemDimensoes, Text("1")) && Stored(r, id, SemDimensoesData, Date(now))
  {
    Put(Put(m, id, SemDimensoes, Text("1")), id, SemDimensoesData, Date(now))
  }

  /** What verificar_dimensoes_ao_salvar() does to the meta: a non-empty
      alert is stored with a date, an empty one deletes both alert keys. */
  function SaveDimensionsEffect(php: Runtime, opts: Options, products: map<ProductId, Product>, e: SaveEvent, m: Meta, now: int): (r: Meta)
    ensures SameOutside(m, r, {e.postId}, {DimensoesAlerta, DimensoesAlertaData})
    ensures !IsProductSave(e) || !e.canEdit || e.postId !in products ==> r == m
    ensures IsProductSave(e) && e.canEdit && e.postId in products ==>
      var a := DimensionAlert(php, products[e.postId], DimensionLimits(php, opts));
      (a != map[] ==> Stored(r, e.postId, DimensoesAlerta, Serialized(a)) && Stored(r, e.postId, DimensoesAlertaData, Date(now)))
      && (a == map[] ==> (e.postId, DimensoesAlerta) !in r && (e.postId, DimensoesAlertaData) !in r)
  {
    if !IsProductSave(e) || !e.canEdit || e.postId !in products then m
    else
      var a := DimensionAlert(php, products[e.postId], DimensionLimits(php, opts));
      if a != map[] then RecordDimensionAlert(m, e.postId, a, now)
      else Delete(m, e.postId, {DimensoesAlerta, DimensoesAlertaData})
  }

  /** What verificar_produto_sem_dimensoes() does to the meta: the flag exists
      afterwards exactly when all three dimensions are missing. */
  function MissingDimensionsEffect(products: map<ProductId, Product>, e: SaveEvent, m: Meta, now: int): (r: Meta)
    ensures SameOutside(m, r, {e.postId}, {SemDimensoes, SemDimensoesData})
    ensures !IsProductSave(e) || e.postId !in products ==> r == m
    ensures IsProductSave(e) && e.postId in products ==>
      ((e.postId, SemDimensoes) in r <==> AllMissing(products[e.postId]))
      && ((e.postId, SemDimensoesData) in r <==> AllMissing(products[e.postId]))
      && (AllMissing(products[e.postId]) ==> Stored(r, e.postId, SemDimensoes, Text("1")))
  {
    if !IsProductSave(e) || e.postId !in products then m
    else if AllMissing(products[e.postId]) then FlagMissingDimensions(m, e.postId, now)
    else Delete(m, e.postId, {SemDimensoes, SemDimensoesData})
  }

  /** The notices validar_dimensoes_antes_salvar() queues: first the missing
      measures, then the out-of-range ones, each only when its list is non-empty. */
  function DimensionNotices(php: Runtime, p: Product, l: Limites): (ns: seq<Notice>)
    ensures |ns| == (if MissingDims(p) != [] then 1 else 0) + (if DimensionAlert(php, p, l) != map[] then 1 else 0)
    ensures ns == [] <==> MissingDims(p) == [] && DimensionAlert(php, p, l) == map[]
    ensures MissingDims(p) != [] ==> ns[0] == SemDimensoesNotice(MissingDims(p))
    ensures DimensionAlert(php, p, l) != map[] ==> ns[|ns| - 1] == DimensoesAnormaisNotice(Entries(DimensionAlert(php, p, l)))
  {
    NoticesFor(MissingDims(p), Entries(DimensionAlert(php, p, l)))
  }

  /** The notice for the missing list, then the one for the problem list,
      each only when its list is non-empty. */
  function NoticesFor(faltando: seq<Dim>, problemas: seq<(Dim, real)>): seq<Notice> {
    (if faltando != [] then [SemDimensoesNotice(faltando)] else [])
    + (if problemas != [] then [DimensoesAnormaisNotice(problemas)] else [])
  }

  class DimensoesValidator {
    const site: Site
    var limitesLargura: Bounds
    var limitesAltura: Bounds
    var limitesComprimento: Bounds

    /** The bounds currently loaded in the fields. */
    function Loaded(): Limites
      reads this
    {
      Limites(limitesLargura, limitesAltura, limitesComprimento)
    }

    constructor (site: Site)
      ensures this.site == site
      ensures Loaded() == DimensionLimits(site.php, site.options)
    {
      this.site := site;
      limitesLargura := Bounds(0.0, 100.0);
      limitesAltura := Bounds(0.0, 100.0);
      limitesComprimento := Bounds(0.0, 100.0);
      new;
      CarregarConfiguracoes();
    }

    /** carregar_configuracoes(): reloads the six bounds. */
    method CarregarConfiguracoes()
      modifies this`limitesLargura, this`limitesAltura, this`limitesComprimento
      ensures Loaded() == DimensionLimits(site.php, site.options)
    {
      var php, opts := site.php, site.options;
      limitesLargura := Bounds(FloatOption(php, opts, DimOption(Largura, false), 0.0), FloatOption(php, opts, DimOption(Largura, true), 100.0));
      limitesAltura := Bounds(FloatOption(php, opts, DimOption(Altura, false), 0.0), FloatOption(php, opts, DimOption(Altura, true), 100.0));
      limitesComprimento := Bounds(FloatOption(php, opts, DimOption(Comprimento, false), 0.0), FloatOption(php, opts, DimOption(Comprimento, true), 100.0));
    }

    /** get_limites(). */
    method GetLimites() returns (l: Limites)
      modifies this`limitesLargura, this`limitesAltura, this`limitesComprimento
      ensures l == Loaded() == DimensionLimits(site.php, site.options)
    {
      CarregarConfiguracoes();
      l := Loaded();
    }

    /** Builds `$dados_alerta` the way the hooks do: one test per dimension,
        in order, adding the entries that are present and out of range. */
    method BuildAlert(p: Product, l: Limites) returns (a: map<Dim, real>)
      ensures a == DimensionAlert(site.php, p, l)
    {
      a := map[];
      if !FalsyText(p.width) {
        var f := site.php.floatval(p.width);
        if f > l.largura.max || f < l.largura.min {
          a := a[Largura := f];
        }
      }
      assert a == AlertStep(site.php, p, l, map[], Largura);
      ghost var a1 := a;
      if !FalsyText(p.height) {
        var f := site.php.floatval(p.height);
        if f > l.altura.max || f < l.altura.min {
          a := a[Altura := f];
        }
      }
      assert a == AlertStep(site.php, p, l, a1, Altura);
      ghost var a2 := a;
      if !FalsyText(p.length) {
        var f := site.php.floatval(p.length);
        if f > l.comprimento.max || f < l.comprimento.min {
          a := a[Comprimento := f];
        }
      }
      assert a == AlertStep(site.php, p, l, a2, Comprimento);
      DimensionAlertBySteps(site.php, p, l);
    }

    /** `$problemas`: one entry per present, out-of-range dimension, in order. */
    method ListProblems(p: Product, l: Limites) returns (problemas: seq<(Dim, real)>)
      ensures problemas == Entries(DimensionAlert(site.php, p, l))
    {
      var a := BuildAlert(p, l);
      problemas := [];
      if Largura in a {
        problemas := problemas + [(Largura, a[Largura])];
      }
      if Altura in a {
        problemas := problemas + [(Altura, a[Altura])];
      }
      if Comprimento in a {
        problemas := problemas + [(Comprimento, a[Comprimento])];
      }
      assert problemas == Entries(a);
    }

    /** `$medidas_faltando`: the missing dimensions, in order. */
    method ListMissing(p: Product) returns (faltando: seq<Dim>)
      ensures faltando == MissingDims(p)
    {
      faltando := [];
      if FalsyText(p.width) {
        faltando := faltando + [Largura];
      }
      if FalsyText(p.height) {
        faltando := faltando + [Altura];
      }
      if FalsyText(p.length) {
        faltando := faltando + [Comprimento];
      }
    }

    /** validar_dimensoes_antes_salvar(): hands the product back untouched and
        queues the missing-measures notice, then the out-of-range notice. */
    method ValidarDimensoesAntesSalvar(product: Option<Product>) returns (r: Option<Product>)
      modifies this`limitesLargura, this`limitesAltura, this`limitesComprimento, site`notices
      ensures r == product
      ensures product.None? ==> site.notices == old(site.notices) && Loaded() == old(Loaded())
      ensures product.Some? ==>
        Loaded() == DimensionLimits(site.php, site.options)
        && site.notices == old(site.notices) + DimensionNotices(site.php, product.value, Loaded())
    {
      if product.None? {
        return product;
      }
      CarregarConfiguracoes();
      AvisarDimensoes(product.value, Loaded());
      return product;
    }

    /** The notice part of validar_dimensoes_antes_salvar(): the missing
        measures first, then the out-of-range ones, each only when its list
        is non-empty. */
    method AvisarDimensoes(p: Product, l: Limites)
      modifies site`notices
      ensures site.notices == old(site.notices) + DimensionNotices(site.php, p, l)
    {
      var problemas := ListProblems(p, l);
      var faltando := ListMissing(p);
      Avisar(faltando, problemas);
    }

    /** Queues the notices for the two lists. */
    method Avisar(faltando: seq<Dim>, problemas: seq<(Dim, real)>)
      modifies site`notices
      ensures site.notices == old(site.notices) + NoticesFor(faltando, problemas)
    {
      ghost var n0 := site.notices;
      if faltando != [] {
        site.AddNotice(SemDimensoesNotice(faltando));
      }
      assert site.notices == n0 + (if faltando != [] then [SemDimensoesNotice(faltando)] else []);
      if problemas != [] {
        site.AddNotice(DimensoesAnormaisNotice(problemas));
      }
    }

    /** verificar_dimensoes_ao_salvar(): also mails the alert when one is stored. */
    method VerificarDimensoesAoSalvar(e: SaveEvent, now: int, email: EmailNotifier)
      requires email.site == site
      modifies this`limitesLargura, this`limitesAltura, this`limitesComprimento, site`meta, email`emailsAlerta, site`outbox
      ensures site.meta == SaveDimensionsEffect(site.php, site.options, site.products, e, old(site.meta), now)
      ensures IsProductSave(e) && e.canEdit ==> Loaded() == DimensionLimits(site.php, site.options)
      ensures !(IsProductSave(e) && e.canEdit) ==> Loaded() == old(Loaded())
      ensures !(IsProductSave(e) && e.canEdit && e.postId in site.products
                && DimensionAlert(site.php, site.products[e.postId], DimensionLimits(site.php, site.options)) != map[])
        || old(email.emailsAlerta) == []
        ==> site.outbox == old(site.outbox) && email.emailsAlerta == old(email.emailsAlerta)
      ensures IsProductSave(e) && e.canEdit && e.postId in site.products && old(email.emailsAlerta) != []
        && DimensionAlert(site.php, site.products[e.postId], DimensionLimits(site.php, site.options)) != map[]
        ==> email.emailsAlerta == ConfiguredRecipients(site.php, site.options)
            && site.outbox == old(site.outbox) + Mails(ConfiguredRecipients(site.php, site.options),
                 DimensoesAnormaisMail(e.postId, DimensionAlert(site.php, site.products[e.postId], DimensionLimits(site.php, site.options))))
    {
      if e.doingAutosave || e.isRevision || e.postType != "product" || !e.canEdit {
        return;
      }
      CarregarConfiguracoes();
      if e.postId !in site.products {
        return;
      }
      var dados := BuildAlert(site.products[e.postId], Loaded());
      GravarAlerta(e.postId, dados, now, email);
    }

    /** The end of verificar_dimensoes_ao_salvar() for a product that exists:
        a non-empty alert is stored and mailed, an empty one clears the alert. */
    method GravarAlerta(id: ProductId, dados: map<Dim, real>, now: int, email: EmailNotifier)
      requires email.site == site && id in site.products
      modifies site`meta, email`emailsAlerta, site`outbox
      ensures dados != map[] ==> site.meta == RecordDimensionAlert(old(site.meta), id, dados, now)
      ensures dados == map[] ==> site.meta == Delete(old(site.meta), id, {DimensoesAlerta, DimensoesAlertaData})
      ensures dados == map[] || old(email.emailsAlerta) == [] ==>
        site.outbox == old(site.outbox) && email.emailsAlerta == old(email.emailsAlerta)
      ensures dados != map[] && old(email.emailsAlerta) != [] ==>
        email.emailsAlerta == ConfiguredRecipients(site.php, site.options)
        && site.outbox == old(site.outbox) + Mails(ConfiguredRecipients(site.php, site.options), DimensoesAnormaisMail(id, dados))
    {
      if dados != map[] {
        RegistrarAlerta(id, dados, now);
        var _ := email.EnviarEmailAlertaDimensoes(id, dados);
      } else {
        site.DeletePostMeta(id, {DimensoesAlerta, DimensoesAlertaData});
      }
    }

    /** verificar_produto_sem_dimensoes(): no permission check; mails when
        the flag is set. */
    method VerificarProdutoSemDimensoes(e: SaveEvent, now: int, email: EmailNotifier)
      requires email.site == site
      modifies site`meta, email`emailsAlerta, site`outbox
      ensures site.meta == MissingDimensionsEffect(site.products, e, old(site.meta), now)
      ensures !(IsProductSave(e) && e.postId in site.products && AllMissing(site.products[e.postId]))
        || old(email.emailsAlerta) == []
        ==> site.outbox == old(site.outbox) && email.emailsAlerta == old(email.emailsAlerta)
      ensures IsProductSave(e) && e.postId in site.products && AllMissing(site.products[e.postId]) && old(email.emailsAlerta) != []
        ==> email.emailsAlerta == ConfiguredRecipients(site.php, site.options)
            && site.outbox == old(site.outbox) + Mails(ConfiguredRecipients(site.php, site.options), SemDimensoesMail(e.postId))
    {
      if e.doingAutosave || e.isRevision || e.postType != "product" {
        return;
      }
      if e.postId !in site.products {
        return;
      }
      var p := site.products[e.postId];
      if FalsyText(p.width) && FalsyText(p.height) && FalsyText(p.length) {
        RegistrarProdutoSemDimensoes(e.postId, now);
        var _ := email.EnviarEmailSemDimensoes(e.postId);
      } else {
        site.DeletePostMeta(e.postId, {SemDimensoes, SemDimensoesData});
      }
    }

    /** The two `save_post_product` callbacks of init_hooks(), in the order
        they are registered, sharing one notifier: the second hook sees the
        address list the first one left. */
    method AoSalvarProduto(e: SaveEvent, now: int, email: EmailNotifier)
      requires email.site == site
      modifies this`limitesLargura, this`limitesAltura, this`limitesComprimento, site`meta, email`emailsAlerta, site`outbox
      ensures site.meta == DimensionHooksEffect(site.php, site.options, site.products, e, old(site.meta), now)
      ensures old(email.emailsAlerta) == [] ==> site.outbox == old(site.outbox) && email.emailsAlerta == []
      ensures IsProductSave(e) && e.postId in site.products && AllMissing(site.products[e.postId]) && old(email.emailsAlerta) != []
        ==> email.emailsAlerta == ConfiguredRecipients(site.php, site.options)
            && site.outbox == old(site.outbox) + Mails(ConfiguredRecipients(site.php, site.options), SemDimensoesMail(e.postId))
      ensures IsProductSave(e) && e.canEdit && e.postId in site.products && old(email.emailsAlerta) != []
        && DimensionAlert(site.php, site.products[e.postId], DimensionLimits(site.php, site.options)) != map[]
        ==> email.emailsAlerta == ConfiguredRecipients(site.php, site.options)
            && site.outbox == old(site.outbox) + Mails(ConfiguredRecipients(site.php, site.options),
                 DimensoesAnormaisMail(e.postId, DimensionAlert(site.php, site.products[e.postId], DimensionLimits(site.php, site.options))))
      ensures !(IsProductSave(e) && e.postId in site.products
                && (AllMissing(site.products[e.postId])
                    || (e.canEdit && DimensionAlert(site.php, site.products[e.postId], DimensionLimits(site.php, site.options)) != map[])))
        ==> site.outbox == old(site.outbox) && email.emailsAlerta == old(email.emailsAlerta)
    {
      if e.postId in site.products && AllMissing(site.products[e.postId]) {
        AllMissingMeansNoAlert(site.php, site.products[e.postId], DimensionLimits(site.php, site.options));
      }
      VerificarDimensoesAoSalvar(e, now, email);
      VerificarProdutoSemDimensoes(e, now, email);
    }

    /** registrar_alerta(). */
    method RegistrarAlerta(id: ProductId, alert: map<Dim, real>, now: int)
      modifies site`meta
      ensures site.meta == RecordDimensionAlert(old(site.meta), id, alert, now)
    {
      site.UpdatePostMeta(id, DimensoesAlerta, Serialized(alert));
      site.UpdatePostMeta(id, DimensoesAlertaData, Date(now));
    }

    /** registrar_produto_sem_dimensoes(). */
    method RegistrarProdutoSemDimensoes(id: ProductId, now: int)
      modifies site`meta
      ensures site.meta == FlagMissingDimensions(old(site.meta), id, now)
    {
      site.UpdatePostMeta(id, SemDimensoes, Text("1"));
      site.UpdatePostMeta(id, SemDimensoesData, Date(now));
    }
  }

  /** Both save hooks, in the order they are registered. */
  function DimensionHooksEffect(php: Runtime, opts: Options, products: map<ProductId, Product>, e: SaveEvent, m: Meta, now: int): Meta {
    MissingDimensionsEffect(products, e, SaveDimensionsEffect(php, opts, products, e, m, now), now)
  }

  /** After both hooks ran on a product save the user may edit: no dimension
      at all gives the missing flag and no alert; an out-of-range dimension
      gives exactly the current alert and no missing flag; otherwise neither
      flag is left. */
  lemma DimensionHooksOutcome(php: Runtime, opts: Options, products: map<ProductId, Product>, e: SaveEvent, m: Meta, now: int)
    requires IsProductSave(e) && e.canEdit && e.postId in products
    ensures var r := DimensionHooksEffect(php, opts, products, e, m, now);
      var id := e.postId;
      var p := products[id];
      var a := DimensionAlert(php, p, DimensionLimits(php, opts));
      SameOutside(m, r, {id}, DimensionKeys)
      && (AllMissing(p) ==> Stored(r, id, SemDimensoes, Text("1")) && (id, DimensoesAlerta) !in r)
      && (a != map[] ==> Stored(r, id, DimensoesAlerta, Serialized(a)) && (id, SemDimensoes) !in r)
      && (!AllMissing(p) && a == map[] ==> (id, DimensoesAlerta) !in r && (id, SemDimensoes) !in r)
  {
    var p := products[e.postId];
    var m1 := SaveDimensionsEffect(php, opts, products, e, m, now);
    var r := MissingDimensionsEffect(products, e, m1, now);
    if AllMissing(p) {
      AllMissingMeansNoAlert(php, p, DimensionLimits(php, opts));
    }
    SameOutsideMoreKeys(m, m1, {e.postId}, {DimensoesAlerta, DimensoesAlertaData}, DimensionKeys);
    SameOutsideMoreKeys(m1, r, {e.postId}, {SemDimensoes, SemDimensoesData}, DimensionKeys);
    SameOutsideTransitive(m, m1, r, {e.postId}, DimensionKeys);
    assert (e.postId, DimensoesAlerta) in r <==> (e.postId, DimensoesAlerta) in m1;
    assert (e.postId, SemDimensoes) in m1 <==> (e.postId, SemDimensoes) in m;
  }
}
