/** The WordPress and WooCommerce state the plugin reads and writes: the
    products with their measures, the plugin's post-meta flags, the options,
    the queued admin notices, the mails handed to wp_mail() and the
    scheduled summary event. */
module Catalog {
  import opened Php

  datatype Option<T> = None | Some(value: T)

  type ProductId = int

  /** A product's weight, width, height and length, as the texts WooCommerce
      keeps for them ('' when the field was never filled in). */
  datatype Product = Product(weight: string, width: string, height: string, length: string)

  /** The three dimensions, in the order the plugin always checks them. */
  datatype Dim = Largura | Altura | Comprimento

  const AllDims: seq<Dim> := [Largura, Altura, Comprimento]

  /** The text WooCommerce keeps for one dimension of a product. */
  function DimText(p: Product, d: Dim): string {
    match d
    case Largura => p.width
    case Altura => p.height
    case Comprimento => p.length
  }

  /** The post-meta keys of the two flag groups. */
  datatype MetaKey =
    | SemPeso              // _dw_produto_sem_peso
    | SemPesoData          // _dw_produto_sem_peso_data
    | PesoAlerta           // _dw_peso_alerta
    | PesoAlertaData       // _dw_peso_alerta_data
    | SemDimensoes         // _dw_produto_sem_dimensoes
    | SemDimensoesData     // _dw_produto_sem_dimensoes_data
    | DimensoesAlerta      // _dw_dimensoes_alerta
    | DimensoesAlertaData  // _dw_dimensoes_alerta_data

  const WeightKeys: set<MetaKey> := {SemPeso, SemPesoData, PesoAlerta, PesoAlertaData}
  const DimensionKeys: set<MetaKey> := {SemDimensoes, SemDimensoesData, DimensoesAlerta, DimensoesAlertaData}

  /** A stored meta value: a text, the text PHP writes for a float, a
      serialized dimension alert, or a current_time('mysql') stamp. */
  datatype MetaValue =
    | Text(s: string)
    | Number(r: real)
    | Serialized(alert: map<Dim, real>)
    | Date(at: int)

  /** The plugin's post meta: one value per product and key. */
  type Meta = map<(ProductId, MetaKey), MetaValue>

  /** get_post_meta($id, $key, true): '' when the key is absent. */
  function GetMeta(m: Meta, id: ProductId, k: MetaKey): (v: MetaValue)
    ensures (id, k) !in m ==> v == Text("")
  {
    if (id, k) in m then m[(id, k)] else Text("")
  }

  /** The key is present and holds v. */
  predicate Stored(m: Meta, id: ProductId, k: MetaKey, v: MetaValue) {
    (id, k) in m && m[(id, k)] == v
  }

  /** PHP truthiness of a meta value as get_post_meta returns it. A float is
      written as its text, so 0.0 reads back as the falsy "0". */
  predicate Truthy(v: MetaValue) {
    match v
    case Text(s) => !FalsyText(s)
    case Number(r) => r != 0.0
    case Serialized(_) => true
    case Date(_) => true
  }

  /** floatval() of a meta value. A serialized array is read back as its
      text, which starts with a letter and so converts to 0. */
  function NumberOf(php: Runtime, v: MetaValue): real {
    match v
    case Text(s) => php.floatval(s)
    case Number(r) => r
    case Serialized(_) => 0.0
    case Date(_) => 0.0
  }

  /** Meta writes and deletes for one product. */
  function Put(m: Meta, id: ProductId, k: MetaKey, v: MetaValue): (r: Meta)
    ensures (id, k) in r && r[(id, k)] == v
    ensures forall key: (ProductId, MetaKey) :: key != (id, k) ==> (key in r <==> key in m) && (key in m ==> r[key] == m[key])
  {
    m[(id, k) := v]
  }

  function Delete(m: Meta, id: ProductId, ks: set<MetaKey>): (r: Meta)
    ensures forall k :: k in ks ==> (id, k) !in r
    ensures forall key: (ProductId, MetaKey) :: key.0 != id || key.1 !in ks ==> (key in r <==> key in m) && (key in m ==> r[key] == m[key])
  {
    map key | key in m && (key.0 != id || key.1 !in ks) :: m[key]
  }

  /** m2 agrees with m1 on every key outside the given products' given keys. */
  ghost predicate SameOutside(m1: Meta, m2: Meta, ids: set<ProductId>, ks: set<MetaKey>) {
    forall key: (ProductId, MetaKey) :: key.0 !in ids || key.1 !in ks ==>
      (key in m1 <==> key in m2) && (key in m1 ==> m1[key] == m2[key])
  }

  lemma SameOutsideTransitive(m1: Meta, m2: Meta, m3: Meta, ids: set<ProductId>, ks: set<MetaKey>)
    requires SameOutside(m1, m2, ids, ks) && SameOutside(m2, m3, ids, ks)
    ensures SameOutside(m1, m3, ids, ks)
  {
  }

  lemma SameOutsideMoreKeys(m1: Meta, m2: Meta, ids: set<ProductId>, ks: set<MetaKey>, more: set<MetaKey>)
    requires SameOutside(m1, m2, ids, ks) && ks <= more
    ensures SameOutside(m1, m2, ids, more)
  {
  }

  /** A stored option: a number or a text. */
  datatype OptionValue = NumberOption(r: real) | TextOption(s: string)

  type Options = map<string, OptionValue>

  /** floatval(get_option(name, default)). */
  function FloatOption(php: Runtime, opts: Options, name: string, default: real): (r: real)
    ensures name !in opts ==> r == default
    ensures name in opts && opts[name].NumberOption? ==> r == opts[name].r
  {
    if name !in opts then default
    else match opts[name]
      case NumberOption(r) => r
      case TextOption(s) => php.floatval(s)
  }

  /** (int) get_option(name, default). */
  function IntOption(php: Runtime, opts: Options, name: string, default: int): (i: int)
    ensures name !in opts ==> i == default
  {
    if name !in opts then default
    else match opts[name]
      case NumberOption(r) => TruncateToInt(r)
      case TextOption(s) => php.intval(s)
  }

  /** get_option(name, default) === text. */
  predicate OptionIs(opts: Options, name: string, default: string, text: string) {
    if name in opts then opts[name] == TextOption(text) else default == text
  }

  /** get_option(name, default) used as a text; a number reads as its text. */
  function TextOf(php: Runtime, opts: Options, name: string, default: string): (s: string)
    ensures name !in opts ==> s == default
    ensures name in opts && opts[name].TextOption? ==> s == opts[name].s
  {
    if name !in opts then default
    else match opts[name]
      case NumberOption(r) => php.strval(r)
      case TextOption(s) => s
  }

  /** A save_post_product call: the post, whether it is an autosave or a
      revision, the post's type and whether the user may edit it. */
  datatype SaveEvent = SaveEvent(postId: ProductId, doingAutosave: bool, isRevision: bool, postType: string, canEdit: bool)

  /** The guards every save hook starts with: not an autosave, not a
      revision, and the post is a product. */
  predicate IsProductSave(e: SaveEvent) {
    !e.doingAutosave && !e.isRevision && e.postType == "product"
  }

  /** Admin notices and settings messages the plugin queues. */
  datatype Notice =
    | SemPesoNotice
    | PesoAnormalNotice(peso: real)
    | SemDimensoesNotice(faltando: seq<Dim>)
    | DimensoesAnormaisNotice(problemas: seq<(Dim, real)>)
    | SettingsMessage(code: string, kind: string)

  /** What a mail is about; the HTML body is not modelled. */
  datatype Topic =
    | PesoAnormalMail(id: ProductId, peso: real)
    | SemPesoMail(id: ProductId)
    | DimensoesAnormaisMail(id: ProductId, alert: map<Dim, real>)
    | SemDimensoesMail(id: ProductId)
    | ResumoMail(title: string, total: nat)

  datatype Mail = Mail(to: string, topic: Topic)

  /** A wp-cron event: first run time and recurrence name. */
  datatype CronEvent = CronEvent(first: int, recurrence: string)

  /** The site: what WordPress keeps between and during requests. */
  class Site {
    /** The PHP built-ins the model keeps abstract. */
    const php: Runtime
    /** Whether wp_mail() reports success for a message. */
    const mailer: Mail -> bool

    var products: map<ProductId, Product>
    var meta: Meta
    var options: Options
    var notices: seq<Notice>
    var outbox: seq<Mail>
    /** The scheduled consolidated-summary event, if any. */
    var summaryEvent: Option<CronEvent>

    constructor (php: Runtime, mailer: Mail -> bool, products: map<ProductId, Product>, meta: Meta, options: Options)
      ensures this.php == php && this.mailer == mailer
      ensures this.products == products && this.meta == meta && this.options == options
      ensures notices == [] && outbox == [] && summaryEvent == None
    {
      this.php := php;
      this.mailer := mailer;
      this.products := products;
      this.meta := meta;
      this.options := options;
      notices := [];
      outbox := [];
      summaryEvent := None;
    }

    /** update_post_meta(). */
    method UpdatePostMeta(id: ProductId, k: MetaKey, v: MetaValue)
      modifies this`meta
      ensures meta == Put(old(meta), id, k, v)
    {
      meta := Put(meta, id, k, v);
    }

    /** delete_post_meta() for each of the given keys. */
    method DeletePostMeta(id: ProductId, ks: set<MetaKey>)
      modifies this`meta
      ensures meta == Delete(old(meta), id, ks)
    {
      meta := Delete(meta, id, ks);
    }

    /** update_option(), once the setting's sanitize callback has run. */
    method UpdateOption(name: string, v: OptionValue)
      modifies this`options
      ensures options == old(options)[name := v]
    {
      options := options[name := v];
    }

    method AddNotice(n: Notice)
      modifies this`notices
      ensures notices == old(notices) + [n]
    {
      notices := notices + [n];
    }

    /** $product->save() after its setters ran. */
    method SaveProduct(id: ProductId, p: Product)
      modifies this`products
      ensures products == old(products)[id := p]
    {
      products := products[id := p];
    }

    /** wp_mail(): the message is handed over and its verdict returned. */
    method SendMail(m: Mail) returns (ok: bool)
      modifies this`outbox
      ensures outbox == old(outbox) + [m]
      ensures ok == mailer(m)
    {
      outbox := outbox + [m];
      ok := mailer(m);
    }
  }
}
