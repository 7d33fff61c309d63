/** The admin class (DW_Verifica_Peso_Admin): the settings form with the
    sanitize callbacks WordPress runs on every update_option(), the bulk
    actions, and the two quick-edit handlers. The list-table columns are in
    AdminColumns and the reanalysis pass in Reanalysis. */
module Admin {
  import opened Php
  import opened Catalog
  import opened Limits
  import opened Email
  import opened WeightValidator
  import opened DimensionValidator
  import opened Reanalysis

  // ---------------------------------------------------------------------
  // Sanitize callbacks

  /** sanitizar_peso() of a number: a negative value is replaced by 0. */
  function SanitizedWeight(v: real): (r: real)
    ensures r >= 0.0
    ensures v >= 0.0 ==> r == v
    ensures v < 0.0 ==> r == 0.0
  {
    if v < 0.0 then 0.0 else v
  }

  /** A sanitized value passes the sanitizer unchanged. */
  lemma SanitizedWeightIdempotent(v: real)
    ensures SanitizedWeight(SanitizedWeight(v)) == SanitizedWeight(v)
  {
  }

  /** The settings error sanitizar_peso() raises for a value. */
  function WeightMessages(v: real): (ns: seq<Notice>)
    ensures ns != [] <==> v < 0.0
    ensures forall n :: n in ns ==> n == SettingsMessage("peso_invalido", "error")
  {
    if v < 0.0 then [SettingsMessage("peso_invalido", "error")] else []
  }

  /** sanitizar_emails(): the valid addresses of a comma-separated text in
      sanitized form, joined by commas again; repeated ones are kept. */
  function SanitizedEmailsText(php: Runtime, text: string): (r: string)
    ensures FalsyText(text) ==> r == ""
  {
    if FalsyText(text) then "" else Implode(',', ValidEmails(php, Explode(',', text)))
  }

  /** An address that survives the sanitizer as it is: trimmed, valid,
      left alone by sanitize_email(), free of commas and not a falsy text. */
  predicate StableAddress(php: Runtime, e: string) {
    Trim(e) == e && php.isEmail(e) && php.sanitizeEmail(e) == e && ',' !in e && !FalsyText(e)
  }

  /** What WordPress' is_email() and sanitize_email() are taken to do:
      sanitizing a valid address gives a stable one. */
  ghost predicate WellBehavedEmails(php: Runtime) {
    forall s {:trigger php.sanitizeEmail(s)} :: php.isEmail(s) ==> StableAddress(php, php.sanitizeEmail(s))
  }

  /** A non-empty list is its front followed by its last element. */
  lemma SplitLast<T>(xs: seq<T>)
    requires xs != []
    ensures xs[..|xs| - 1] + [xs[|xs| - 1]] == xs
  {
  }

  /** Stable addresses pass the validity filter unchanged. */
  lemma {:induction false} ValidEmailsOfStable(php: Runtime, xs: seq<string>)
    requires forall i :: 0 <= i < |xs| ==> StableAddress(php, xs[i])
    ensures ValidEmails(php, xs) == xs
    decreases |xs|
  {
    if xs != [] {
      var init := xs[..|xs| - 1];
      var last := xs[|xs| - 1];
      ValidEmailsOfStable(php, init);
      assert ValidPiece(php, last) && php.sanitizeEmail(Trim(last)) == last;
      SplitLast(xs);
    }
  }

  /** The list sanitizar_emails() keeps is made of stable addresses. */
  lemma ValidEmailsStable(php: Runtime, pieces: seq<string>)
    requires WellBehavedEmails(php)
    ensures forall e :: e in ValidEmails(php, pieces) ==> StableAddress(php, e)
  {
    ValidEmailsMembers(php, pieces);
    forall e | e in ValidEmails(php, pieces)
      ensures StableAddress(php, e)
    {
      var p :| p in pieces && ValidPiece(php, p) && e == php.sanitizeEmail(Trim(p));
      assert php.isEmail(Trim(p));
    }
  }

  /** Joining stable addresses gives a text that is not falsy. */
  lemma ImplodeStableNotFalsy(php: Runtime, v: seq<string>)
    requires v != [] && forall e :: e in v ==> StableAddress(php, e)
    ensures !FalsyText(Implode(',', v))
  {
    assert v[0] in v;
    if |v| > 1 {
      assert |Implode(',', v)| >= |v[0]| + 1;
    }
  }

  /** The text the settings page stores for the alert addresses gives the
      notifier the same recipients as the text that was typed in. */
  lemma SanitizedEmailsKeepRecipients(php: Runtime, text: string)
    requires WellBehavedEmails(php)
    ensures Recipients(php, SanitizedEmailsText(php, text)) == Recipients(php, text)
  {
    if !FalsyText(text) {
      var v := ValidEmails(php, Explode(',', text));
      ValidEmailsStable(php, Explode(',', text));
      if v != [] {
        assert forall i :: 0 <= i < |v| ==> v[i] in v;
        ExplodeImplode(',', v);
        ValidEmailsOfStable(php, v);
        ImplodeStableNotFalsy(php, v);
      }
    }
  }

  // ---------------------------------------------------------------------
  // Settings form

  /** The settings posted with the form, after salvar_configuracoes() read
      them: floatval() for numbers, the text as given otherwise. */
  datatype Settings = Settings(
    pesoMaximo: real,
    pesoMinimo: real,
    emails: string,
    tipo: string,
    valor: real,
    fixo: real,
    limites: Limites)

  /** A number field of the form, or its default when it was not posted. */
  function FormNumber(php: Runtime, form: map<string, string>, name: string, default: real): (r: real)
    ensures name !in form ==> r == default
    ensures name in form ==> r == php.floatval(form[name])
  {
    if name in form then php.floatval(form[name]) else default
  }

  /** A text field of the form, or its default. */
  function FormText(form: map<string, string>, name: string, default: string): (r: string)
    ensures name !in form ==> r == default
    ensures name in form ==> r == form[name]
  {
    if name in form then form[name] else default
  }

  /** The form read with the defaults of salvar_configuracoes(). */
  function ReadSettings(php: Runtime, form: map<string, string>): (s: Settings)
    ensures "dw_peso_maximo" !in form ==> s.pesoMaximo == 20.0
    ensures "dw_peso_minimo" !in form ==> s.pesoMinimo == 0.01
    ensures "dw_peso_padrao_tipo" !in form ==> s.tipo == "calculado"
    ensures forall d :: DimOption(d, false) !in form && DimOption(d, true) !in form ==> s.limites.Of(d) == Bounds(0.0, 100.0)
  {
    Settings(
      FormNumber(php, form, "dw_peso_maximo", 20.0),
      FormNumber(php, form, "dw_peso_minimo", 0.01),
      FormText(form, EmailsOption, ""),
      FormText(form, "dw_peso_padrao_tipo", "calculado"),
      FormNumber(php, form, "dw_peso_padrao_valor", 0.5),
      FormNumber(php, form, "dw_peso_padrao_fixo", 0.5),
      Limites(
        Bounds(FormNumber(php, form, DimOption(Largura, false), 0.0), FormNumber(php, form, DimOption(Largura, true), 100.0)),
        Bounds(FormNumber(php, form, DimOption(Altura, false), 0.0), FormNumber(php, form, DimOption(Altura, true), 100.0)),
        Bounds(FormNumber(php, form, DimOption(Comprimento, false), 0.0), FormNumber(php, form, DimOption(Comprimento, true), 100.0))))
  }

  /** The default-weight type: anything but 'calculado' or 'fixo' becomes 'calculado'. */
  function NormalizedTipo(t: string): (r: string)
    ensures r == "calculado" || r == "fixo"
    ensures t == "calculado" || t == "fixo" ==> r == t
  {
    if t == "calculado" || t == "fixo" then t else "calculado"
  }

  /** One 'dimensao_invalida' error per dimension whose minimum is not below
      its maximum, in the order largura, altura, comprimento. */
  function DimensionErrors(l: Limites): (ns: seq<Notice>)
    ensures |ns| <= 3
    ensures forall n :: n in ns ==> n == SettingsMessage("dimensao_invalida", "error")
    ensures ns == [] <==> l.largura.min < l.largura.max && l.altura.min < l.altura.max && l.comprimento.min < l.comprimento.max
  {
    var ns := (if l.largura.min >= l.largura.max then [SettingsMessage("dimensao_invalida", "error")] else [])
      + (if l.altura.min >= l.altura.max then [SettingsMessage("dimensao_invalida", "error")] else [])
      + (if l.comprimento.min >= l.comprimento.max then [SettingsMessage("dimensao_invalida", "error")] else []);
    ns
  }

  /** The options after the six weight and e-mail update_option() calls,
      each value passed through the callback registered for it. */
  function SavedWeightOptions(php: Runtime, opts: Options, s: Settings): Options {
    opts["dw_peso_maximo" := NumberOption(SanitizedWeight(s.pesoMaximo))]
        ["dw_peso_minimo" := NumberOption(SanitizedWeight(s.pesoMinimo))]
        [EmailsOption := TextOption(SanitizedEmailsText(php, s.emails))]
        ["dw_peso_padrao_tipo" := TextOption(NormalizedTipo(s.tipo))]
        ["dw_peso_padrao_valor" := NumberOption(SanitizedWeight(s.valor))]
        ["dw_peso_padrao_fixo" := NumberOption(SanitizedWeight(s.fixo))]
  }

  /** The options after the six dimension update_option() calls. */
  function SavedDimensionOptions(opts: Options, l: Limites): Options {
    opts[DimOption(Largura, false) := NumberOption(SanitizedWeight(l.largura.min))]
        [DimOption(Largura, true) := NumberOption(SanitizedWeight(l.largura.max))]
        [DimOption(Altura, false) := NumberOption(SanitizedWeight(l.altura.min))]
        [DimOption(Altura, true) := NumberOption(SanitizedWeight(l.altura.max))]
        [DimOption(Comprimento, false) := NumberOption(SanitizedWeight(l.comprimento.min))]
        [DimOption(Comprimento, true) := NumberOption(SanitizedWeight(l.comprimento.max))]
  }

  /** The options after all twelve writes of a successful save. */
  function SavedOptions(php: Runtime, opts: Options, s: Settings): Options {
    SavedDimensionOptions(SavedWeightOptions(php, opts, s), s.limites)
  }

  /** The dimension writes touch only the six dimension options. */
  lemma SavedDimensionOptionsFrame(opts: Options, l: Limites, name: string)
    requires |name| < 8 || name[..8] != "dw_dimen"
    ensures name in SavedDimensionOptions(opts, l) <==> name in opts
    ensures name in opts ==> SavedDimensionOptions(opts, l)[name] == opts[name]
  {
    DimOptionsDistinct();
  }

  /** Each dimension bound reads back as its sanitized value. */
  lemma SavedDimensionOptionsRead(php: Runtime, opts: Options, l: Limites)
    ensures forall d :: DimensionLimits(php, SavedDimensionOptions(opts, l)).Of(d) == Bounds(SanitizedWeight(l.Of(d).min), SanitizedWeight(l.Of(d).max))
  {
    DimOptionsDistinct();
    var o := SavedDimensionOptions(opts, l);
    forall d ensures DimensionLimits(php, o).Of(d) == Bounds(SanitizedWeight(l.Of(d).min), SanitizedWeight(l.Of(d).max)) {
      if d == Largura {
        assert o[DimOption(Largura, false)] == NumberOption(SanitizedWeight(l.largura.min));
        assert o[DimOption(Largura, true)] == NumberOption(SanitizedWeight(l.largura.max));
      } else if d == Altura {
        assert o[DimOption(Altura, false)] == NumberOption(SanitizedWeight(l.altura.min));
        assert o[DimOption(Altura, true)] == NumberOption(SanitizedWeight(l.altura.max));
      } else {
        assert d == Comprimento;
      }
    }
  }

  /** The sanitizer errors of the four weight and default-weight numbers,
      in the order they are written. */
  function WeightSaveMessages(s: Settings): seq<Notice> {
    WeightMessages(s.pesoMaximo) + WeightMessages(s.pesoMinimo)
    + WeightMessages(s.valor) + WeightMessages(s.fixo)
  }

  /** The sanitizer errors of the six dimension bounds, in the order they
      are written. */
  function DimensionSaveMessages(l: Limites): seq<Notice> {
    WeightMessages(l.largura.min) + WeightMessages(l.largura.max)
    + WeightMessages(l.altura.min) + WeightMessages(l.altura.max)
    + WeightMessages(l.comprimento.min) + WeightMessages(l.comprimento.max)
  }

  lemma AppendFour<T>(n: seq<T>, a: seq<T>, b: seq<T>, c: seq<T>, d: seq<T>)
    ensures n + a + b + c + d == n + (a + b + c + d)
  {
  }

  lemma AppendSix<T>(n: seq<T>, a: seq<T>, b: seq<T>, c: seq<T>, d: seq<T>, e: seq<T>, f: seq<T>)
    ensures n + a + b + c + d + e + f == n + (a + b + c + d + e + f)
  {
  }

  /** The messages a successful save queues: the dimension errors, then the
      sanitizer errors in the order the options are written, then success. */
  function SaveMessages(s: Settings): seq<Notice> {
    DimensionErrors(s.limites) + WeightSaveMessages(s) + DimensionSaveMessages(s.limites)
    + [SettingsMessage("configuracao_salva", "success")]
  }

  /** What the validators read back after a save: the sanitized weight
      bounds, the sanitized dimension bounds and the sanitized addresses;
      every stored bound is non-negative. */
  lemma SavedOptionsReadBack(php: Runtime, opts: Options, s: Settings)
    ensures var o := SavedOptions(php, opts, s);
      WeightBounds(php, o) == Bounds(SanitizedWeight(s.pesoMinimo), SanitizedWeight(s.pesoMaximo))
      && (forall d :: DimensionLimits(php, o).Of(d) == Bounds(SanitizedWeight(s.limites.Of(d).min), SanitizedWeight(s.limites.Of(d).max)))
      && (forall d :: DimensionLimits(php, o).Of(d).min >= 0.0)
      && WeightBounds(php, o).min >= 0.0
      && TextOf(php, o, EmailsOption, "") == SanitizedEmailsText(php, s.emails)
      && TextOf(php, o, "dw_peso_padrao_tipo", "calculado") == NormalizedTipo(s.tipo)
      && FloatOption(php, o, "dw_peso_padrao_valor", 0.5) == SanitizedWeight(s.valor)
      && FloatOption(php, o, "dw_peso_padrao_fixo", 0.5) == SanitizedWeight(s.fixo)
  {
    var w := SavedWeightOptions(php, opts, s);
    SavedWeightOptionsRead(php, opts, s);
    SavedDimensionOptionsRead(php, w, s.limites);
    SavedDimensionOptionsKeepWeight(php, w, s.limites);
  }

  /** Each weight and default-weight option reads back as written. */
  lemma SavedWeightOptionsRead(php: Runtime, opts: Options, s: Settings)
    ensures var w := SavedWeightOptions(php, opts, s);
      WeightBounds(php, w) == Bounds(SanitizedWeight(s.pesoMinimo), SanitizedWeight(s.pesoMaximo))
      && TextOf(php, w, EmailsOption, "") == SanitizedEmailsText(php, s.emails)
      && TextOf(php, w, "dw_peso_padrao_tipo", "calculado") == NormalizedTipo(s.tipo)
      && FloatOption(php, w, "dw_peso_padrao_valor", 0.5) == SanitizedWeight(s.valor)
      && FloatOption(php, w, "dw_peso_padrao_fixo", 0.5) == SanitizedWeight(s.fixo)
  {
    WrittenWeightOptions(php, opts, SanitizedWeight(s.pesoMaximo), SanitizedWeight(s.pesoMinimo),
      SanitizedEmailsText(php, s.emails), NormalizedTipo(s.tipo), SanitizedWeight(s.valor), SanitizedWeight(s.fixo));
  }

  /** The six weight writes, whatever the values written. */
  lemma WrittenWeightOptions(php: Runtime, opts: Options, max: real, min: real, emails: string, tipo: string, valor: real, fixo: real)
    ensures var w := opts["dw_peso_maximo" := NumberOption(max)]["dw_peso_minimo" := NumberOption(min)]
        [EmailsOption := TextOption(emails)]["dw_peso_padrao_tipo" := TextOption(tipo)]
        ["dw_peso_padrao_valor" := NumberOption(valor)]["dw_peso_padrao_fixo" := NumberOption(fixo)];
      WeightBounds(php, w) == Bounds(min, max)
      && TextOf(php, w, EmailsOption, "") == emails
      && TextOf(php, w, "dw_peso_padrao_tipo", "calculado") == tipo
      && FloatOption(php, w, "dw_peso_padrao_valor", 0.5) == valor
      && FloatOption(php, w, "dw_peso_padrao_fixo", 0.5) == fixo
  {
    assert "dw_peso_maximo"[9] != "dw_peso_minimo"[9];
    assert "dw_peso_padrao_tipo"[15] != "dw_peso_padrao_fixo"[15];
    assert |"dw_peso_maximo"| == 14 && |EmailsOption| == 21 && |"dw_peso_padrao_tipo"| == 19 && |"dw_peso_padrao_valor"| == 20;
  }

  /** The dimension writes leave what the weight options read back as. */
  lemma SavedDimensionOptionsKeepWeight(php: Runtime, w: Options, l: Limites)
    ensures var o := SavedDimensionOptions(w, l);
      WeightBounds(php, o) == WeightBounds(php, w)
      && TextOf(php, o, EmailsOption, "") == TextOf(php, w, EmailsOption, "")
      && TextOf(php, o, "dw_peso_padrao_tipo", "calculado") == TextOf(php, w, "dw_peso_padrao_tipo", "calculado")
      && FloatOption(php, o, "dw_peso_padrao_valor", 0.5) == FloatOption(php, w, "dw_peso_padrao_valor", 0.5)
      && FloatOption(php, o, "dw_peso_padrao_fixo", 0.5) == FloatOption(php, w, "dw_peso_padrao_fixo", 0.5)
  {
    assert "dw_peso_maximo"[..8] == "dw_peso_";
    assert "dw_peso_minimo"[..8] == "dw_peso_";
    assert EmailsOption[..8] == "dw_peso_";
    assert "dw_peso_padrao_tipo"[..8] == "dw_peso_";
    assert "dw_peso_padrao_valor"[..8] == "dw_peso_";
    assert "dw_peso_padrao_fixo"[..8] == "dw_peso_";
    SavedDimensionOptionsFrame(w, l, "dw_peso_maximo");
    SavedDimensionOptionsFrame(w, l, "dw_peso_minimo");
    SavedDimensionOptionsFrame(w, l, EmailsOption);
    SavedDimensionOptionsFrame(w, l, "dw_peso_padrao_tipo");
    SavedDimensionOptionsFrame(w, l, "dw_peso_padrao_valor");
    SavedDimensionOptionsFrame(w, l, "dw_peso_padrao_fixo");
  }

  /** The check `min < max` is made on the values as posted, and the
      sanitizer runs afterwards: two negative bounds pass the check and are
      both stored as 0, so no positive weight is in range afterwards. */
  lemma NegativeBoundsCollapse(php: Runtime, opts: Options, s: Settings, w: real)
    requires s.pesoMinimo < s.pesoMaximo <= 0.0 && w > 0.0
    ensures var b := WeightBounds(php, SavedOptions(php, opts, s));
      b == Bounds(0.0, 0.0) && OutOfRange(w, b)
  {
    SavedOptionsReadBack(php, opts, s);
  }

  // ---------------------------------------------------------------------
  // Default weight of the bulk action

  /** The weight set_default_weight writes: a custom value that is_numeric
      accepts, read by floatval (the comma replacement is a no-op there, as
      a text with a comma is not numeric); else the fixed setting when the
      type is 'fixo'; else the minimum weight plus the configured offset. */
  function DefaultWeight(php: Runtime, opts: Options, custom: string): (peso: real)
    ensures custom != "" && php.isNumeric(custom) ==> peso == php.floatval(ReplaceChar(custom, ',', '.'))
    ensures !(custom != "" && php.isNumeric(custom)) && OptionIs(opts, "dw_peso_padrao_tipo", "calculado", "fixo") ==>
      peso == FloatOption(php, opts, "dw_peso_padrao_fixo", 0.5)
    ensures !(custom != "" && php.isNumeric(custom)) && !OptionIs(opts, "dw_peso_padrao_tipo", "calculado", "fixo") ==>
      peso == WeightBounds(php, opts).min + FloatOption(php, opts, "dw_peso_padrao_valor", 0.5)
  {
    if custom != "" && php.isNumeric(custom) then php.floatval(ReplaceChar(custom, ',', '.'))
    else if OptionIs(opts, "dw_peso_padrao_tipo", "calculado", "fixo") then FloatOption(php, opts, "dw_peso_padrao_fixo", 0.5)
    else WeightBounds(php, opts).min + FloatOption(php, opts, "dw_peso_padrao_valor", 0.5)
  }

  /** Once the settings were saved from the form, a default weight taken from
      the settings is never negative, and a calculated one is never below
      the minimum weight, so it can only be abnormal by exceeding the maximum. */
  lemma DefaultWeightAfterSave(php: Runtime, opts: Options, s: Settings, custom: string)
    requires !(custom != "" && php.isNumeric(custom))
    ensures var o := SavedOptions(php, opts, s);
      var peso := DefaultWeight(php, o, custom);
      peso >= 0.0
      && (NormalizedTipo(s.tipo) == "calculado" ==>
            peso >= WeightBounds(php, o).min
            && (OutOfRange(peso, WeightBounds(php, o)) <==> peso > WeightBounds(php, o).max))
  {
    SavedOptionsReadBack(php, opts, s);
  }

  // ---------------------------------------------------------------------
  // Meta effects of the bulk actions and quick edit

  /** The elements of a list of ids. */
  function IdSet(ids: seq<ProductId>): set<ProductId> {
    set id | id in ids
  }

  /** delete_post_meta() of the given keys for every listed product. */
  function DeleteForAll(m: Meta, ids: set<ProductId>, ks: set<MetaKey>): (r: Meta)
    ensures forall id, k :: id in ids && k in ks ==> (id, k) !in r
    ensures SameOutside(m, r, ids, ks)
  {
    map key | key in m && !(key.0 in ids && key.1 in ks) :: m[key]
  }

  /** Deleting for one more product extends the deleted set by that product. */
  lemma DeleteForAllStep(m: Meta, ids: set<ProductId>, id: ProductId, ks: set<MetaKey>)
    ensures Delete(DeleteForAll(m, ids, ks), id, ks) == DeleteForAll(m, ids + {id}, ks)
  {
    var a := Delete(DeleteForAll(m, ids, ks), id, ks);
    var b := DeleteForAll(m, ids + {id}, ks);
    assert forall key :: key in a <==> key in b;
  }

  /** The weight flags after a positive weight was written: no missing flag,
      and the alert with its date exactly when the weight is out of range. */
  function PositiveWeightFlags(m: Meta, id: ProductId, peso: real, b: Bounds, now: int): (r: Meta)
    ensures SameOutside(m, r, {id}, WeightKeys)
    ensures (id, SemPeso) !in r && (id, SemPesoData) !in r
    ensures (id, PesoAlerta) in r <==> OutOfRange(peso, b)
    ensures (id, PesoAlertaData) in r <==> OutOfRange(peso, b)
    ensures OutOfRange(peso, b) ==> Stored(r, id, PesoAlerta, Number(peso)) && Stored(r, id, PesoAlertaData, Date(now))
  {
    var m1 := Delete(m, id, {SemPeso, SemPesoData});
    if OutOfRange(peso, b) then RecordWeightAlert(m1, id, peso, now)
    else Delete(m1, id, {PesoAlerta, PesoAlertaData})
  }

  /** The dimension flags after quick edit: no missing flag, and the alert
      with its date exactly when some dimension is out of range. */
  function EditedDimensionFlags(m: Meta, id: ProductId, a: map<Dim, real>, now: int): (r: Meta)
    ensures SameOutside(m, r, {id}, DimensionKeys)
    ensures (id, SemDimensoes) !in r && (id, SemDimensoesData) !in r
    ensures (id, DimensoesAlerta) in r <==> a != map[]
    ensures (id, DimensoesAlertaData) in r <==> a != map[]
    ensures a != map[] ==> Stored(r, id, DimensoesAlerta, Serialized(a)) && Stored(r, id, DimensoesAlertaData, Date(now))
  {
    var m1 := Delete(m, id, {SemDimensoes, SemDimensoesData});
    if a != map[] then RecordDimensionAlert(m1, id, a, now)
    else Delete(m1, id, {DimensoesAlerta, DimensoesAlertaData})
  }

  /** The weight flags after set_default_weight ran over a list of ids. */
  function DefaultWeightMeta(m: Meta, products: map<ProductId, Product>, ids: seq<ProductId>, peso: real, b: Bounds, now: int): Meta
    decreases |ids|
  {
    if ids == [] then m
    else
      var r := DefaultWeightMeta(m, products, ids[..|ids| - 1], peso, b, now);
      var id := ids[|ids| - 1];
      if id in products && peso > 0.0 then PositiveWeightFlags(r, id, peso, b, now) else r
  }

  /** The weight flags a product has once a positive weight was written. */
  predicate HasPositiveWeightFlags(r: Meta, id: ProductId, peso: real, b: Bounds, now: int) {
    (id, SemPeso) !in r && (id, SemPesoData) !in r
    && ((id, PesoAlerta) in r <==> OutOfRange(peso, b))
    && (OutOfRange(peso, b) ==> Stored(r, id, PesoAlerta, Number(peso)) && Stored(r, id, PesoAlertaData, Date(now)))
    && (!OutOfRange(peso, b) ==> (id, PesoAlertaData) !in r)
  }

  /** Rewriting other products' weight flags keeps this product's. */
  lemma HasPositiveWeightFlagsFrame(r0: Meta, r: Meta, other: set<ProductId>, id: ProductId, peso: real, b: Bounds, now: int)
    requires SameOutside(r0, r, other, WeightKeys) && id !in other
    requires HasPositiveWeightFlags(r0, id, peso, b, now)
    ensures HasPositiveWeightFlags(r, id, peso, b, now)
  {
    assert SemPeso in WeightKeys;
  }

  /** set_default_weight leaves every listed product that exists with the
      weight flags of its new weight, and changes nothing else. */
  lemma {:induction false} DefaultWeightMetaOutcome(m: Meta, products: map<ProductId, Product>, ids: seq<ProductId>, peso: real, b: Bounds, now: int)
    ensures var r := DefaultWeightMeta(m, products, ids, peso, b, now);
      SameOutside(m, r, IdSet(ids), WeightKeys)
      && (peso <= 0.0 ==> r == m)
      && forall id :: id in ids && id in products && peso > 0.0 ==> HasPositiveWeightFlags(r, id, peso, b, now)
    decreases |ids|
  {
    if ids != [] {
      var init := ids[..|ids| - 1];
      var id := ids[|ids| - 1];
      DefaultWeightMetaOutcome(m, products, init, peso, b, now);
      var r0 := DefaultWeightMeta(m, products, init, peso, b, now);
      assert ids == init + [id];
      assert IdSet(ids) == IdSet(init) + {id};
      SameOutsideWiden(m, r0, IdSet(init), IdSet(ids), WeightKeys);
      if id in products && peso > 0.0 {
        var r := PositiveWeightFlags(r0, id, peso, b, now);
        SameOutsideWiden(r0, r, {id}, IdSet(ids), WeightKeys);
        SameOutsideTransitive(m, r0, r, IdSet(ids), WeightKeys);
        forall x | x in ids && x in products
          ensures HasPositiveWeightFlags(r, x, peso, b, now)
        {
          if x != id {
            assert x in init;
            HasPositiveWeightFlagsFrame(r0, r, {id}, x, peso, b, now);
          }
        }
      } else {
        forall x | x in ids && x in products && peso > 0.0
          ensures HasPositiveWeightFlags(r0, x, peso, b, now)
        {
          assert x in init;
        }
      }
    }
  }

  /** Agreement outside fewer products implies agreement outside more. */
  lemma SameOutsideWiden(m1: Meta, m2: Meta, small: set<ProductId>, large: set<ProductId>, ks: set<MetaKey>)
    requires SameOutside(m1, m2, small, ks) && small <= large
    ensures SameOutside(m1, m2, large, ks)
  {
  }

  /** The products after set_default_weight: every listed product that
      exists gets the weight text, the others are untouched. */
  function WithWeight(products: map<ProductId, Product>, ids: set<ProductId>, text: string): (r: map<ProductId, Product>)
    ensures r.Keys == products.Keys
    ensures forall id :: id in products && id in ids ==> r[id] == products[id].(weight := text)
    ensures forall id :: id in products && id !in ids ==> r[id] == products[id]
  {
    map id | id in products :: if id in ids then products[id].(weight := text) else products[id]
  }

  /** Giving one more existing product the weight extends the set of
      products that have it. */
  lemma WithWeightStep(products: map<ProductId, Product>, ids: set<ProductId>, id: ProductId, text: string)
    requires id in products
    ensures WithWeight(products, ids, text)[id := WithWeight(products, ids, text)[id].(weight := text)]
      == WithWeight(products, ids + {id}, text)
  {
    var a := WithWeight(products, ids, text)[id := WithWeight(products, ids, text)[id].(weight := text)];
    var c := WithWeight(products, ids + {id}, text);
    assert a.Keys == c.Keys;
    assert forall x :: x in a ==> a[x] == c[x];
  }

  /** Naming a product that does not exist changes nothing. */
  lemma WithWeightAbsent(products: map<ProductId, Product>, ids: set<ProductId>, id: ProductId, text: string)
    requires id !in products
    ensures WithWeight(products, ids, text) == WithWeight(products, ids + {id}, text)
  {
    var a := WithWeight(products, ids, text);
    var c := WithWeight(products, ids + {id}, text);
    assert a.Keys == c.Keys;
    assert forall x :: x in a ==> a[x] == c[x];
  }

  /** The ids of a prefix grow by one id at a time. */
  lemma IdSetStep(ids: seq<ProductId>, i: int)
    requires 0 <= i < |ids|
    ensures IdSet(ids[..i + 1]) == IdSet(ids[..i]) + {ids[i]}
  {
    assert ids[..i + 1] == ids[..i] + [ids[i]];
  }

  /** One more id of set_default_weight. */
  lemma DefaultWeightMetaStep(m: Meta, products: map<ProductId, Product>, ids: seq<ProductId>, i: int, peso: real, b: Bounds, now: int)
    requires 0 <= i < |ids|
    ensures var r := DefaultWeightMeta(m, products, ids[..i], peso, b, now);
      DefaultWeightMeta(m, products, ids[..i + 1], peso, b, now)
      == if ids[i] in products && peso > 0.0 then PositiveWeightFlags(r, ids[i], peso, b, now) else r
  {
    assert ids[..i + 1][..i] == ids[..i];
  }

  /** The outcome of a quick edit: an error message code, or the weight or
      dimension texts now saved. */
  datatype Reply = Failure(code: string) | Success(values: seq<string>)

  /** The text quick edit saves for one dimension: empty input, or a value
      that does not parse to a positive number, clears it. */
  function QuickDimText(php: Runtime, input: string): (t: string)
    ensures input == "" ==> t == ""
    ensures input != "" && php.floatval(ReplaceChar(input, ',', '.')) > 0.0 ==> t == php.strval(php.floatval(ReplaceChar(input, ',', '.')))
    ensures input != "" && php.floatval(ReplaceChar(input, ',', '.')) <= 0.0 ==> t == ""
  {
    if input == "" then ""
    else
      var f := php.floatval(ReplaceChar(input, ',', '.'));
      if f > 0.0 then php.strval(f) else ""
  }

  /** The inputs quick edit treats as "no weight". */
  predicate EmptyWeightInput(peso: string) {
    peso == "" || peso == "0" || peso == "0.0"
  }

  /** Emptying the weight in quick edit sets the missing flag but keeps any
      alert, so the weight group is settled afterwards only when the
      product had neither the alert nor its date. */
  lemma QuickEditEmptyWeightKeepsAlert(php: Runtime, p: Product, b: Bounds, m: Meta, id: ProductId, now: int)
    ensures var q := p.(weight := "");
      var r := FlagMissingWeight(m, id, now);
      GetMeta(r, id, PesoAlerta) == GetMeta(m, id, PesoAlerta)
      && (WeightSettled(php, q, b, r, id) <==> (id, PesoAlerta) !in m && (id, PesoAlertaData) !in m)
  {
    var r := FlagMissingWeight(m, id, now);
    assert ((id, PesoAlerta) in r <==> (id, PesoAlerta) in m) && ((id, PesoAlertaData) in r <==> (id, PesoAlertaData) in m);
  }

  /** Clearing all three dimensions in quick edit removes the
      missing-dimensions flag and does not set it again: the product has
      no dimension at all and no flag saying so. */
  lemma QuickEditClearedDimensionsUnflagged(php: Runtime, p: Product, l: Limites, m: Meta, id: ProductId, now: int)
    ensures var q := p.(width := QuickDimText(php, ""), height := QuickDimText(php, ""), length := QuickDimText(php, ""));
      var r := EditedDimensionFlags(m, id, DimensionAlert(php, q, l), now);
      AllMissing(q) && (id, SemDimensoes) !in r && !DimensionsSettled(php, q, l, r, id)
  {
    var q := p.(width := QuickDimText(php, ""), height := QuickDimText(php, ""), length := QuickDimText(php, ""));
    AllMissingMeansNoAlert(php, q, l);
  }

  class PesoAdmin {
    const site: Site

    constructor (site: Site)
      ensures this.site == site
    {
      this.site := site;
    }

    /** sanitizar_peso(), as the callback update_option() runs. */
    method SanitizarPeso(v: real) returns (r: real)
      modifies site`notices
      ensures r == SanitizedWeight(v)
      ensures site.notices == old(site.notices) + WeightMessages(v)
    {
      if v < 0.0 {
        site.AddNotice(SettingsMessage("peso_invalido", "error"));
        return 0.0;
      }
      return v;
    }

    /** sanitizar_emails(). */
    method SanitizarEmails(text: string) returns (r: string)
      ensures r == SanitizedEmailsText(site.php, text)
    {
      if FalsyText(text) {
        return "";
      }
      var pieces := Explode(',', text);
      var validos: seq<string> := [];
      var i := 0;
      while i < |pieces|
        invariant 0 <= i <= |pieces|
        invariant validos == ValidEmails(site.php, pieces[..i])
      {
        var email := Trim(pieces[i]);
        ValidEmailsStep(site.php, pieces, i);
        if site.php.isEmail(email) {
          validos := validos + [site.php.sanitizeEmail(email)];
        }
        i := i + 1;
      }
      assert pieces[..i] == pieces;
      r := Implode(',', validos);
    }

    /** update_option() of a number option registered with sanitizar_peso. */
    method UpdateNumberOption(name: string, v: real)
      modifies site`options, site`notices
      ensures site.options == old(site.options)[name := NumberOption(SanitizedWeight(v))]
      ensures site.notices == old(site.notices) + WeightMessages(v)
    {
      var r := SanitizarPeso(v);
      site.UpdateOption(name, NumberOption(r));
    }

    /** salvar_configuracoes(): nothing is stored when the weight minimum is
        not below the maximum; an invalid dimension pair only adds an error;
        otherwise all twelve options are written through their callbacks. */
    method SalvarConfiguracoes(form: map<string, string>)
      modifies site`options, site`notices
      ensures var s := ReadSettings(site.php, form);
        s.pesoMinimo >= s.pesoMaximo ==>
          site.options == old(site.options)
          && site.notices == old(site.notices) + [SettingsMessage("peso_invalido", "error")]
      ensures var s := ReadSettings(site.php, form);
        s.pesoMinimo < s.pesoMaximo ==>
          site.options == SavedOptions(site.php, old(site.options), s)
          && site.notices == old(site.notices) + SaveMessages(s)
    {
      var s := ReadSettings(site.php, form);
      if s.pesoMinimo >= s.pesoMaximo {
        site.AddNotice(SettingsMessage("peso_invalido", "error"));
        return;
      }
      ghost var n0 := site.notices;
      AvisarDimensoesInvalidas(s.limites);
      SalvarPesos(s);
      SalvarDimensoes(s.limites);
      site.AddNotice(SettingsMessage("configuracao_salva", "success"));
      AppendFour(n0, DimensionErrors(s.limites), WeightSaveMessages(s), DimensionSaveMessages(s.limites),
        [SettingsMessage("configuracao_salva", "success")]);
    }

    /** The 'dimensao_invalida' errors of salvar_configuracoes(). */
    method AvisarDimensoesInvalidas(l: Limites)
      modifies site`notices
      ensures site.notices == old(site.notices) + DimensionErrors(l)
    {
      if l.largura.min >= l.largura.max {
        site.AddNotice(SettingsMessage("dimensao_invalida", "error"));
      }
      if l.altura.min >= l.altura.max {
        site.AddNotice(SettingsMessage("dimensao_invalida", "error"));
      }
      if l.comprimento.min >= l.comprimento.max {
        site.AddNotice(SettingsMessage("dimensao_invalida", "error"));
      }
    }

    /** The six weight and e-mail writes of salvar_configuracoes(). */
    method SalvarPesos(s: Settings)
      modifies site`options, site`notices
      ensures site.options == SavedWeightOptions(site.php, old(site.options), s)
      ensures site.notices == old(site.notices) + WeightSaveMessages(s)
    {
      ghost var n0 := site.notices;
      UpdateNumberOption("dw_peso_maximo", s.pesoMaximo);
      UpdateNumberOption("dw_peso_minimo", s.pesoMinimo);
      var emails := SanitizarEmails(s.emails);
      site.UpdateOption(EmailsOption, TextOption(emails));
      site.UpdateOption("dw_peso_padrao_tipo", TextOption(NormalizedTipo(s.tipo)));
      UpdateNumberOption("dw_peso_padrao_valor", s.valor);
      UpdateNumberOption("dw_peso_padrao_fixo", s.fixo);
      AppendFour(n0, WeightMessages(s.pesoMaximo), WeightMessages(s.pesoMinimo),
        WeightMessages(s.valor), WeightMessages(s.fixo));
    }

    /** The six dimension writes of salvar_configuracoes(). */
    method SalvarDimensoes(l: Limites)
      modifies site`options, site`notices
      ensures site.options == SavedDimensionOptions(old(site.options), l)
      ensures site.notices == old(site.notices) + DimensionSaveMessages(l)
    {
      ghost var n0 := site.notices;
      UpdateNumberOption(DimOption(Largura, false), l.largura.min);
      UpdateNumberOption(DimOption(Largura, true), l.largura.max);
      UpdateNumberOption(DimOption(Altura, false), l.altura.min);
      UpdateNumberOption(DimOption(Altura, true), l.altura.max);
      UpdateNumberOption(DimOption(Comprimento, false), l.comprimento.min);
      UpdateNumberOption(DimOption(Comprimento, true), l.comprimento.max);
      AppendSix(n0, WeightMessages(l.largura.min), WeightMessages(l.largura.max),
        WeightMessages(l.altura.min), WeightMessages(l.altura.max),
        WeightMessages(l.comprimento.min), WeightMessages(l.comprimento.max));
    }

    /** The deleting loop of remove_flags and remove_flags_dimensoes. */
    method RemoverFlags(ids: seq<ProductId>, ks: set<MetaKey>)
      modifies site`meta
      ensures site.meta == DeleteForAll(old(site.meta), IdSet(ids), ks)
    {
      var i := 0;
      while i < |ids|
        invariant 0 <= i <= |ids|
        invariant site.meta == DeleteForAll(old(site.meta), IdSet(ids[..i]), ks)
      {
        DeleteForAllStep(old(site.meta), IdSet(ids[..i]), ids[i], ks);
        site.DeletePostMeta(ids[i], ks);
        assert IdSet(ids[..i + 1]) == IdSet(ids[..i]) + {ids[i]} by {
          assert ids[..i + 1] == ids[..i] + [ids[i]];
        }
        i := i + 1;
      }
      assert ids[..i] == ids;
    }

    /** The writing loop of set_default_weight: each listed product that
        exists gets the weight and the flags of that weight, provided the
        weight is positive. */
    method DefinirPesoPadrao(ids: seq<ProductId>, peso: real, now: int)
      modifies site`products, site`meta
      ensures peso > 0.0 ==> site.products == WithWeight(old(site.products), IdSet(ids), site.php.strval(peso))
      ensures peso <= 0.0 ==> site.products == old(site.products)
      ensures site.meta == DefaultWeightMeta(old(site.meta), old(site.products), ids, peso, WeightBounds(site.php, site.options), now)
    {
      var b := WeightBounds(site.php, site.options);
      var text := site.php.strval(peso);
      var i := 0;
      while i < |ids|
        invariant 0 <= i <= |ids|
        invariant site.products.Keys == old(site.products).Keys
        invariant peso > 0.0 ==> site.products == WithWeight(old(site.products), IdSet(ids[..i]), text)
        invariant peso <= 0.0 ==> site.products == old(site.products)
        invariant site.meta == DefaultWeightMeta(old(site.meta), old(site.products), ids[..i], peso, b, now)
      {
        var id := ids[i];
        DefaultWeightMetaStep(old(site.meta), old(site.products), ids, i, peso, b, now);
        IdSetStep(ids, i);
        if id in site.products && peso > 0.0 {
          WithWeightStep(old(site.products), IdSet(ids[..i]), id, text);
          AplicarPesoPadrao(id, peso, text, b, now);
        } else if peso > 0.0 {
          WithWeightAbsent(old(site.products), IdSet(ids[..i]), id, text);
        }
        i := i + 1;
      }
      assert ids[..i] == ids;
    }

    /** One product of set_default_weight: the weight is saved, the missing
        flag cleared and the alert set or cleared by the bounds. */
    method AplicarPesoPadrao(id: ProductId, peso: real, text: string, b: Bounds, now: int)
      requires id in site.products
      modifies site`products, site`meta
      ensures site.products == old(site.products)[id := old(site.products)[id].(weight := text)]
      ensures site.meta == PositiveWeightFlags(old(site.meta), id, peso, b, now)
    {
      site.SaveProduct(id, site.products[id].(weight := text));
      site.DeletePostMeta(id, {SemPeso, SemPesoData});
      if peso > b.max || peso < b.min {
        site.UpdatePostMeta(id, PesoAlerta, Number(peso));
        site.UpdatePostMeta(id, PesoAlertaData, Date(now));
      } else {
        site.DeletePostMeta(id, {PesoAlerta, PesoAlertaData});
      }
    }

    /** executar_acao_massa(): the three bulk actions; any other action does nothing. */
    method ExecutarAcaoMassa(acao: string, ids: seq<ProductId>, custom: string, now: int)
      modifies site`products, site`meta
      ensures acao == "remove_flags" ==>
        site.meta == DeleteForAll(old(site.meta), IdSet(ids), WeightKeys) && site.products == old(site.products)
      ensures acao == "remove_flags_dimensoes" ==>
        site.meta == DeleteForAll(old(site.meta), IdSet(ids), DimensionKeys) && site.products == old(site.products)
      ensures acao == "set_default_weight" ==>
        var peso := DefaultWeight(site.php, site.options, custom);
        site.meta == DefaultWeightMeta(old(site.meta), old(site.products), ids, peso, WeightBounds(site.php, site.options), now)
        && (peso > 0.0 ==> site.products == WithWeight(old(site.products), IdSet(ids), site.php.strval(peso)))
        && (peso <= 0.0 ==> site.products == old(site.products))
      ensures acao != "remove_flags" && acao != "remove_flags_dimensoes" && acao != "set_default_weight" ==>
        site.meta == old(site.meta) && site.products == old(site.products)
    {
      if acao == "remove_flags" {
        RemoverFlags(ids, WeightKeys);
      } else if acao == "remove_flags_dimensoes" {
        RemoverFlags(ids, DimensionKeys);
      } else if acao == "set_default_weight" {
        var peso := DefaultWeight(site.php, site.options, custom);
        DefinirPesoPadrao(ids, peso, now);
      }
    }

    /** ajax_quick_edit(): id 0 and unknown products are refused; an empty
        weight clears the weight and sets the missing flag; a parsed weight
        that is not positive is refused; any other weight is saved, clears the
        missing flag, and raises the alert (and its mail) exactly when it is
        out of range. A refusal changes nothing. */
    method AjaxQuickEdit(id: ProductId, peso: string, now: int, email: EmailNotifier) returns (reply: Reply)
      requires email.site == site
      modifies site`products, site`meta, site`outbox, email`emailsAlerta
      ensures id == 0 || id !in old(site.products) ==>
        reply.Failure? && site.products == old(site.products) && site.meta == old(site.meta) && site.outbox == old(site.outbox)
        && email.emailsAlerta == old(email.emailsAlerta)
      ensures id != 0 && id in old(site.products) && EmptyWeightInput(peso) ==>
        reply == Success([""])
        && site.products == old(site.products)[id := old(site.products)[id].(weight := "")]
        && site.meta == FlagMissingWeight(old(site.meta), id, now)
        && site.outbox == old(site.outbox) && email.emailsAlerta == old(email.emailsAlerta)
      ensures id != 0 && id in old(site.products) && !EmptyWeightInput(peso) && site.php.floatval(ReplaceChar(peso, ',', '.')) <= 0.0 ==>
        reply == Failure("peso_invalido") && site.products == old(site.products) && site.meta == old(site.meta) && site.outbox == old(site.outbox)
        && email.emailsAlerta == old(email.emailsAlerta)
      ensures id != 0 && id in old(site.products) && !EmptyWeightInput(peso) && site.php.floatval(ReplaceChar(peso, ',', '.')) > 0.0 ==>
        var f := site.php.floatval(ReplaceChar(peso, ',', '.'));
        var b := WeightBounds(site.php, site.options);
        reply == Success([site.php.strval(f)])
        && site.products == old(site.products)[id := old(site.products)[id].(weight := site.php.strval(f))]
        && site.meta == PositiveWeightFlags(old(site.meta), id, f, b, now)
        && (!OutOfRange(f, b) || old(email.emailsAlerta) == [] ==>
              site.outbox == old(site.outbox) && email.emailsAlerta == old(email.emailsAlerta))
        && (OutOfRange(f, b) && old(email.emailsAlerta) != [] ==>
              email.emailsAlerta == ConfiguredRecipients(site.php, site.options)
              && site.outbox == old(site.outbox) + Mails(ConfiguredRecipients(site.php, site.options), PesoAnormalMail(id, f)))
    {
      if id == 0 {
        return Failure("id_invalido");
      }
      if id !in site.products {
        return Failure("produto_nao_encontrado");
      }
      if EmptyWeightInput(peso) {
        site.SaveProduct(id, site.products[id].(weight := ""));
        site.UpdatePostMeta(id, SemPeso, Text("1"));
        site.UpdatePostMeta(id, SemPesoData, Date(now));
        return Success([""]);
      }
      var pesoFloat := site.php.floatval(ReplaceChar(peso, ',', '.'));
      if pesoFloat <= 0.0 {
        return Failure("peso_invalido");
      }
      var b := WeightBounds(site.php, site.options);
      SalvarPesoRapido(id, pesoFloat, b, now, email);
      return Success([site.php.strval(pesoFloat)]);
    }

    /** The saving part of ajax_quick_edit() for a positive weight: the
        weight text, no missing flag, the alert with its date exactly when the
        weight is out of range, and then the alert mail. */
    method SalvarPesoRapido(id: ProductId, f: real, b: Bounds, now: int, email: EmailNotifier)
      requires email.site == site && id in site.products
      modifies site`products, site`meta, site`outbox, email`emailsAlerta
      ensures site.products == old(site.products)[id := old(site.products)[id].(weight := site.php.strval(f))]
      ensures site.meta == PositiveWeightFlags(old(site.meta), id, f, b, now)
      ensures !OutOfRange(f, b) || old(email.emailsAlerta) == [] ==>
        site.outbox == old(site.outbox) && email.emailsAlerta == old(email.emailsAlerta)
      ensures OutOfRange(f, b) && old(email.emailsAlerta) != [] ==>
        email.emailsAlerta == ConfiguredRecipients(site.php, site.options)
        && site.outbox == old(site.outbox) + Mails(ConfiguredRecipients(site.php, site.options), PesoAnormalMail(id, f))
    {
      site.SaveProduct(id, site.products[id].(weight := site.php.strval(f)));
      site.DeletePostMeta(id, {SemPeso, SemPesoData});
      if f > b.max || f < b.min {
        site.UpdatePostMeta(id, PesoAlerta, Number(f));
        site.UpdatePostMeta(id, PesoAlertaData, Date(now));
        var _ := email.EnviarEmailAlerta(id, f);
      } else {
        site.DeletePostMeta(id, {PesoAlerta, PesoAlertaData});
      }
    }

    /** ajax_quick_edit_dimensoes(): each dimension is saved from its input,
        the missing-dimensions flag is always cleared, and the alert is
        rebuilt from the saved dimensions and the current limits. */
    method AjaxQuickEditDimensoes(id: ProductId, largura: string, altura: string, comprimento: string, now: int) returns (reply: Reply)
      modifies site`products, site`meta
      ensures id == 0 || id !in old(site.products) ==>
        reply.Failure? && site.products == old(site.products) && site.meta == old(site.meta)
      ensures id != 0 && id in old(site.products) ==>
        var p := old(site.products)[id].(width := QuickDimText(site.php, largura), height := QuickDimText(site.php, altura), length := QuickDimText(site.php, comprimento));
        reply == Success([p.width, p.height, p.length])
        && site.products == old(site.products)[id := p]
        && site.meta == EditedDimensionFlags(old(site.meta), id, DimensionAlert(site.php, p, DimensionLimits(site.php, site.options)), now)
    {
      if id == 0 {
        return Failure("id_invalido");
      }
      if id !in site.products {
        return Failure("produto_nao_encontrado");
      }
      var p := site.products[id].(width := QuickDimText(site.php, largura), height := QuickDimText(site.php, altura), length := QuickDimText(site.php, comprimento));
      site.SaveProduct(id, p);
      var a := DimensionAlert(site.php, p, DimensionLimits(site.php, site.options));
      AtualizarFlagsDimensoes(id, a, now);
      return Success([p.width, p.height, p.length]);
    }

    /** The flag writes of ajax_quick_edit_dimensoes(). */
    method AtualizarFlagsDimensoes(id: ProductId, a: map<Dim, real>, now: int)
      modifies site`meta
      ensures site.meta == EditedDimensionFlags(old(site.meta), id, a, now)
    {
      site.DeletePostMeta(id, {SemDimensoes, SemDimensoesData});
      if a != map[] {
        site.UpdatePostMeta(id, DimensoesAlerta, Serialized(a));
        site.UpdatePostMeta(id, DimensoesAlertaData, Date(now));
      } else {
        site.DeletePostMeta(id, {DimensoesAlerta, DimensoesAlertaData});
      }
    }
  
    /** reanalisar_todos_produtos() over the product ids the query returned:
        ids that are no product are skipped but still counted as processed.
        Each product goes through the code's own tests; every group of a
        listed product ends settled or as it was, and nothing else changes. */
    method ReanalisarTodosProdutos(ids: seq<ProductId>, now: int) returns (processados: nat, alterados: nat)
      modifies site`meta
      ensures processados == |ids| && alterados <= processados
      ensures Tally(site.meta, alterados)
        == ReanalysisRunAsWritten(site.php, site.products, ids, WeightBounds(site.php, site.options), DimensionLimits(site.php, site.options), old(site.meta), now)
      ensures SameOutside(old(site.meta), site.meta, (set id | id in ids), FlagKeys)
      ensures SettledOrKept(site.php, site.products, ids, WeightBounds(site.php, site.options), DimensionLimits(site.php, site.options), old(site.meta), site.meta)
    {
      var b := WeightBounds(site.php, site.options);
      var l := DimensionLimits(site.php, site.options);
      alterados := 0;
      var i := 0;
      while i < |ids|
        invariant 0 <= i <= |ids|
        invariant Tally(site.meta, alterados) == ReanalysisRunAsWritten(site.php, site.products, ids[..i], b, l, old(site.meta), now)
      {
        var id := ids[i];
        assert ids[..i + 1][..i] == ids[..i];
        if id in site.products {
          var p := site.products[id];
          var alteradoPeso := ReanalisarPeso(id, p, b, now);
          var alteradoDimensoes := ReanalisarDimensoes(id, p, l, now);
          if alteradoPeso || alteradoDimensoes {
            alterados := alterados + 1;
          }
        }
        i := i + 1;
      }
      assert ids[..i] == ids;
      ReanalysisAsWrittenBounds(site.php, site.products, ids, b, l, old(site.meta), now);
      processados := |ids|;
    }

    /** The weight part of the re-analysis of one product: the stored flag
        and alert are judged by their truthiness, as the code reads them back. */
    method ReanalisarPeso(id: ProductId, p: Product, b: Bounds, now: int) returns (alterado: bool)
      modifies site`meta
      ensures Outcome(site.meta, alterado) == ReconcileWeightAsWritten(site.php, p, b, old(site.meta), id, now)
    {
      var m := site.meta;
      if FalsyText(p.weight) {
        var tinhaSemPeso := GetMeta(m, id, SemPeso);
        var tinhaAlerta := GetMeta(m, id, PesoAlerta);
        if !Truthy(tinhaSemPeso) || Truthy(tinhaAlerta) {
          site.UpdatePostMeta(id, SemPeso, Text("1"));
          site.UpdatePostMeta(id, SemPesoData, Date(now));
          site.DeletePostMeta(id, {PesoAlerta, PesoAlertaData});
          return true;
        }
        return false;
      }
      var pesoFloat := site.php.floatval(ReplaceChar(p.weight, ',', '.'));
      if pesoFloat > b.max || pesoFloat < b.min {
        var tinhaAlerta := GetMeta(m, id, PesoAlerta);
        if !Truthy(tinhaAlerta) || Abs(NumberOf(site.php, tinhaAlerta) - pesoFloat) > 0.0001 {
          site.UpdatePostMeta(id, PesoAlerta, Number(pesoFloat));
          site.UpdatePostMeta(id, PesoAlertaData, Date(now));
          site.DeletePostMeta(id, {SemPeso, SemPesoData});
          return true;
        }
        return false;
      }
      if Truthy(GetMeta(m, id, SemPeso)) || Truthy(GetMeta(m, id, PesoAlerta)) {
        site.DeletePostMeta(id, WeightKeys);
        return true;
      }
      return false;
    }

    /** The dimension part of the re-analysis of one product: the flag and
        the cleanup are judged by truthiness, and an alert is rewritten when
        the stored one differs from the new one. */
    method ReanalisarDimensoes(id: ProductId, p: Product, l: Limites, now: int) returns (alterado: bool)
      modifies site`meta
      ensures Outcome(site.meta, alterado) == ReconcileDimensionsAsWritten(site.php, p, l, old(site.meta), id, now)
    {
      var m := site.meta;
      if AllMissing(p) {
        if !Truthy(GetMeta(m, id, SemDimensoes)) || Truthy(GetMeta(m, id, DimensoesAlerta)) {
          site.UpdatePostMeta(id, SemDimensoes, Text("1"));
          site.UpdatePostMeta(id, SemDimensoesData, Date(now));
          site.DeletePostMeta(id, {DimensoesAlerta, DimensoesAlertaData});
          return true;
        }
        return false;
      }
      var a := DimensionAlert(site.php, p, l);
      if a != map[] {
        if GetMeta(m, id, DimensoesAlerta) != Serialized(a) {
          site.UpdatePostMeta(id, DimensoesAlerta, Serialized(a));
          site.UpdatePostMeta(id, DimensoesAlertaData, Date(now));
          site.DeletePostMeta(id, {SemDimensoes, SemDimensoesData});
          return true;
        }
        return false;
      }
      if Truthy(GetMeta(m, id, SemDimensoes)) || Truthy(GetMeta(m, id, DimensoesAlerta)) {
        site.DeletePostMeta(id, DimensionKeys);
        return true;
      }
      return false;
    }
  }
}
