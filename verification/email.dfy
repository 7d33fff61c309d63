/** The notifier (DW_Verifica_Peso_Email): the recipient list read from the
    `dw_peso_emails_alerta` option, the per-product alert mails with their
    early returns, and the consolidated summary. The mail bodies are not
    modelled; a mail is its recipient and its topic. */
module Email {
  import opened Php
  import opened Catalog

  const EmailsOption := "dw_peso_emails_alerta"

  predicate NoDuplicates(xs: seq<string>) {
    forall i, j :: 0 <= i < j < |xs| ==> xs[i] != xs[j]
  }

  /** The position of the first occurrence of x in xs. */
  function FirstIndex(xs: seq<string>, x: string): (k: nat)
    requires x in xs
    ensures k < |xs| && xs[k] == x && x !in xs[..k]
  {
    if xs[0] == x then 0
    else
      var j := FirstIndex(xs[1..], x);
      assert xs[..j + 1] == [xs[0]] + xs[1..][..j];
      assert x !in [xs[0]] + xs[1..][..j];
      j + 1
  }

  /** r lists its entries in the order of their first occurrence in xs. */
  predicate InFirstOccurrenceOrder(xs: seq<string>, r: seq<string>)
    requires forall x :: x in r ==> x in xs
  {
    forall i, j :: 0 <= i < j < |r| ==> FirstIndex(xs, r[i]) < FirstIndex(xs, r[j])
  }

  /** Appending an entry does not move the first occurrence of an entry already there. */
  lemma FirstIndexSnoc(xs: seq<string>, y: string, x: string)
    requires x in xs
    ensures FirstIndex(xs + [y], x) == FirstIndex(xs, x)
  {
    var k, k' := FirstIndex(xs, x), FirstIndex(xs + [y], x);
    if k < k' {
      IndexInPrefix(xs + [y], k', k);
      assert false;
    } else if k' < k {
      IndexInPrefix(xs, k, k');
      assert false;
    }
  }

  lemma IndexInPrefix(s: seq<string>, n: int, k: int)
    requires 0 <= k < n <= |s|
    ensures s[k] in s[..n]
  {
    assert s[..n][k] == s[k];
  }

  /** array_unique(): the first occurrence of each entry, in order. */
  function Dedup(xs: seq<string>): (r: seq<string>)
    ensures forall x :: x in r <==> x in xs
    ensures NoDuplicates(r)
    ensures |r| <= |xs|
    ensures InFirstOccurrenceOrder(xs, r)
    decreases |xs|
  {
    if xs == [] then []
    else
      var init := xs[..|xs| - 1];
      var last := xs[|xs| - 1];
      var r := Dedup(init);
      assert xs == init + [last];
      assert forall i :: 0 <= i < |r| ==> FirstIndex(xs, r[i]) == FirstIndex(init, r[i]) by {
        forall i | 0 <= i < |r| ensures FirstIndex(xs, r[i]) == FirstIndex(init, r[i]) {
          FirstIndexSnoc(init, last, r[i]);
        }
      }
      if last in r then r
      else
        assert FirstIndex(xs, last) == |init|;
        r + [last]
  }

  /** A list without duplicates is left as it is, so array_unique is idempotent. */
  lemma {:induction false} DedupOfDistinct(xs: seq<string>)
    requires NoDuplicates(xs)
    ensures Dedup(xs) == xs
    decreases |xs|
  {
    if xs != [] {
      var init := xs[..|xs| - 1];
      assert NoDuplicates(init);
      DedupOfDistinct(init);
      assert xs[|xs| - 1] !in init;
      assert init + [xs[|xs| - 1]] == xs;
    }
  }

  lemma DedupIdempotent(xs: seq<string>)
    ensures Dedup(Dedup(xs)) == Dedup(xs)
  {
    DedupOfDistinct(Dedup(xs));
  }

  /** The address kept for one comma-separated piece, if it is valid. */
  predicate ValidPiece(php: Runtime, piece: string) {
    php.isEmail(Trim(piece))
  }

  /** The sanitized valid addresses among the pieces, in order (the
      `$emails_validos` list both sanitizers build). */
  function ValidEmails(php: Runtime, pieces: seq<string>): (r: seq<string>)
    ensures |r| <= |pieces|
    decreases |pieces|
  {
    if pieces == [] then []
    else
      var init := pieces[..|pieces| - 1];
      var last := pieces[|pieces| - 1];
      ValidEmails(php, init) + (if ValidPiece(php, last) then [php.sanitizeEmail(Trim(last))] else [])
  }

  /** The list for one more piece: the next piece's address is appended when it is valid. */
  lemma ValidEmailsStep(php: Runtime, pieces: seq<string>, i: int)
    requires 0 <= i < |pieces|
    ensures ValidEmails(php, pieces[..i + 1]) == ValidEmails(php, pieces[..i])
      + (if ValidPiece(php, pieces[i]) then [php.sanitizeEmail(Trim(pieces[i]))] else [])
  {
    assert pieces[..i + 1][..i] == pieces[..i];
  }

  /** e is the sanitized form of a trimmed piece that is_email() accepts. */
  predicate FromValidPiece(php: Runtime, pieces: seq<string>, e: string) {
    exists p :: p in pieces && ValidPiece(php, p) && e == php.sanitizeEmail(Trim(p))
  }

  /** An address is kept exactly when it is the sanitized form of a trimmed
      piece that is_email() accepts. */
  lemma {:induction false} ValidEmailsMembers(php: Runtime, pieces: seq<string>)
    ensures forall e :: e in ValidEmails(php, pieces) <==> FromValidPiece(php, pieces, e)
    decreases |pieces|
  {
    if pieces != [] {
      var init := pieces[..|pieces| - 1];
      var last := pieces[|pieces| - 1];
      ValidEmailsMembers(php, init);
      assert pieces == init + [last];
      forall e ensures e in ValidEmails(php, pieces) <==> FromValidPiece(php, pieces, e) {
        if e in ValidEmails(php, init) {
          assert FromValidPiece(php, init, e);
          var p :| p in init && ValidPiece(php, p) && e == php.sanitizeEmail(Trim(p));
          assert p in pieces;
        }
        if FromValidPiece(php, pieces, e) {
          var p :| p in pieces && ValidPiece(php, p) && e == php.sanitizeEmail(Trim(p));
          if p != last {
            assert p in init;
            assert FromValidPiece(php, init, e);
          }
        }
      }
    }
  }

  /** The recipient list the notifier keeps for an option text. */
  function Recipients(php: Runtime, text: string): (r: seq<string>)
    ensures FalsyText(text) ==> r == []
    ensures NoDuplicates(r)
    ensures forall e :: e in r <==> e in ValidEmails(php, Explode(',', text)) && !FalsyText(text)
  {
    if FalsyText(text) then [] else Dedup(ValidEmails(php, Explode(',', text)))
  }

  /** Every recipient is the sanitized form of a trimmed piece of the text
      that is_email() accepts. */
  lemma RecipientsFromPieces(php: Runtime, text: string)
    ensures forall e :: e in Recipients(php, text) ==>
      exists p :: p in Explode(',', text) && ValidPiece(php, p) && e == php.sanitizeEmail(Trim(p))
  {
    ValidEmailsMembers(php, Explode(',', text));
  }

  /** The recipients configured in the options. */
  function ConfiguredRecipients(php: Runtime, opts: Options): seq<string> {
    Recipients(php, TextOf(php, opts, EmailsOption, ""))
  }

  /** One mail per recipient, in order, all on the same topic. */
  function Mails(to: seq<string>, topic: Topic): (ms: seq<Mail>)
    ensures |ms| == |to|
    ensures forall i :: 0 <= i < |to| ==> ms[i] == Mail(to[i], topic)
  {
    seq(|to|, i requires 0 <= i < |to| => Mail(to[i], topic))
  }

  /** Whether wp_mail() accepted at least one of the given recipients. */
  predicate AnyDelivered(mailer: Mail -> bool, to: seq<string>, topic: Topic) {
    exists e :: e in to && mailer(Mail(e, topic))
  }

  /** The four problem lists gathered for the summary; the queries that
      gather them are not modelled. */
  datatype Problemas = Problemas(
    semPeso: seq<ProductId>,
    pesoAnormal: seq<ProductId>,
    semDimensoes: seq<ProductId>,
    dimensoesAnormais: seq<ProductId>)

  /** The number of problems the summary reports. */
  function Total(d: Problemas): (n: nat)
    ensures n == 0 <==> d.semPeso == [] && d.pesoAnormal == [] && d.semDimensoes == [] && d.dimensoesAnormais == []
    ensures n >= |d.semPeso| && n >= |d.pesoAnormal| && n >= |d.semDimensoes| && n >= |d.dimensoesAnormais|
  {
    |d.semPeso| + |d.pesoAnormal| + |d.semDimensoes| + |d.dimensoesAnormais|
  }

  const TituloDiario := "Resumo Diário"
  const TituloSemanal := "Resumo Semanal"
  const TituloMensal := "Resumo Mensal"

  /** The summary title for a type; an unknown type gets the daily title. */
  function Titulo(tipo: string): (t: string)
    ensures t in {TituloDiario, TituloSemanal, TituloMensal}
    ensures t == TituloSemanal <==> tipo == "semanal"
    ensures t == TituloMensal <==> tipo == "mensal"
    ensures tipo != "semanal" && tipo != "mensal" ==> t == TituloDiario
  {
    if tipo == "semanal" then TituloSemanal
    else if tipo == "mensal" then TituloMensal
    else TituloDiario
  }

  class EmailNotifier {
    const site: Site
    /** `$emails_alerta`: the list loaded when the notifier was created or last reloaded. */
    var emailsAlerta: seq<string>

    constructor (site: Site)
      ensures this.site == site
      ensures emailsAlerta == ConfiguredRecipients(site.php, site.options)
    {
      this.site := site;
      emailsAlerta := Recipients(site.php, TextOf(site.php, site.options, EmailsOption, ""));
    }

    /** sanitizar_emails(): splits on commas, trims, keeps valid addresses
        in sanitized form and drops repeated ones. */
    method SanitizarEmails(text: string) returns (r: seq<string>)
      ensures r == Recipients(site.php, text)
    {
      if FalsyText(text) {
        return [];
      }
      var pieces := Explode(',', text);
      var validos: seq<string> := [];
      var i := 0;
      while i < |pieces|
        invariant 0 <= i <= |pieces|
        invariant validos == ValidEmails(site.php, pieces[..i])
      {
        var email := Trim(pieces[i]);
        ValidEmailsStep(site.php, pieces, i);
        if site.php.isEmail(email) {
          validos := validos + [site.php.sanitizeEmail(email)];
        }
        i := i + 1;
      }
      assert pieces[..i] == pieces;
      r := Dedup(validos);
    }

    /** carregar_emails(). */
    method CarregarEmails()
      modifies this`emailsAlerta
      ensures emailsAlerta == ConfiguredRecipients(site.php, site.options)
    {
      emailsAlerta := SanitizarEmails(TextOf(site.php, site.options, EmailsOption, ""));
    }

    /** The send loop: every recipient is tried, since `wp_mail(...) || $enviado`
        calls wp_mail() first; the result is whether any call succeeded. */
    method Broadcast(to: seq<string>, topic: Topic) returns (enviado: bool)
      modifies site`outbox
      ensures site.outbox == old(site.outbox) + Mails(to, topic)
      ensures enviado <==> AnyDelivered(site.mailer, to, topic)
    {
      enviado := false;
      var i := 0;
      while i < |to|
        invariant 0 <= i <= |to|
        invariant site.outbox == old(site.outbox) + Mails(to[..i], topic)
        invariant enviado <==> AnyDelivered(site.mailer, to[..i], topic)
      {
        var ok := site.SendMail(Mail(to[i], topic));
        enviado := ok || enviado;
        assert to[..i + 1] == to[..i] + [to[i]];
        assert Mails(to[..i + 1], topic) == Mails(to[..i], topic) + [Mail(to[i], topic)];
        i := i + 1;
      }
      assert to[..i] == to;
    }

    /** The common shape of the four per-product alerts: no mail when the
        loaded list is empty or the product does not exist; otherwise the
        list is reloaded and every recipient is tried. */
    method EnviarAlertaProduto(id: ProductId, topic: Topic) returns (enviado: bool)
      modifies this`emailsAlerta, site`outbox
      ensures old(emailsAlerta) == [] || id !in site.products ==>
        !enviado && emailsAlerta == old(emailsAlerta) && site.outbox == old(site.outbox)
      ensures old(emailsAlerta) != [] && id in site.products ==>
        emailsAlerta == ConfiguredRecipients(site.php, site.options)
        && site.outbox == old(site.outbox) + Mails(emailsAlerta, topic)
        && (enviado <==> AnyDelivered(site.mailer, emailsAlerta, topic))
    {
      if emailsAlerta == [] {
        return false;
      }
      if id !in site.products {
        return false;
      }
      CarregarEmails();
      enviado := Broadcast(emailsAlerta, topic);
    }

    /** enviar_email_alerta(): abnormal weight. */
    method EnviarEmailAlerta(id: ProductId, peso: real) returns (enviado: bool)
      modifies this`emailsAlerta, site`outbox
      ensures old(emailsAlerta) == [] || id !in site.products ==>
        !enviado && emailsAlerta == old(emailsAlerta) && site.outbox == old(site.outbox)
      ensures old(emailsAlerta) != [] && id in site.products ==>
        emailsAlerta == ConfiguredRecipients(site.php, site.options)
        && site.outbox == old(site.outbox) + Mails(emailsAlerta, PesoAnormalMail(id, peso))
        && (enviado <==> AnyDelivered(site.mailer, emailsAlerta, PesoAnormalMail(id, peso)))
    {
      enviado := EnviarAlertaProduto(id, PesoAnormalMail(id, peso));
    }

    /** enviar_email_sem_peso(): missing weight. */
    method EnviarEmailSemPeso(id: ProductId) returns (enviado: bool)
      modifies this`emailsAlerta, site`outbox
      ensures old(emailsAlerta) == [] || id !in site.products ==>
        !enviado && emailsAlerta == old(emailsAlerta) && site.outbox == old(site.outbox)
      ensures old(emailsAlerta) != [] && id in site.products ==>
        emailsAlerta == ConfiguredRecipients(site.php, site.options)
        && site.outbox == old(site.outbox) + Mails(emailsAlerta, SemPesoMail(id))
        && (enviado <==> AnyDelivered(site.mailer, emailsAlerta, SemPesoMail(id)))
    {
      enviado := EnviarAlertaProduto(id, SemPesoMail(id));
    }

    /** enviar_email_alerta_dimensoes(): abnormal dimensions. */
    method EnviarEmailAlertaDimensoes(id: ProductId, alert: map<Dim, real>) returns (enviado: bool)
      modifies this`emailsAlerta, site`outbox
      ensures old(emailsAlerta) == [] || id !in site.products ==>
        !enviado && emailsAlerta == old(emailsAlerta) && site.outbox == old(site.outbox)
      ensures old(emailsAlerta) != [] && id in site.products ==>
        emailsAlerta == ConfiguredRecipients(site.php, site.options)
        && site.outbox == old(site.outbox) + Mails(emailsAlerta, DimensoesAnormaisMail(id, alert))
        && (enviado <==> AnyDelivered(site.mailer, emailsAlerta, DimensoesAnormaisMail(id, alert)))
    {
      enviado := EnviarAlertaProduto(id, DimensoesAnormaisMail(id, alert));
    }

    /** enviar_email_sem_dimensoes(): no dimension at all. */
    method EnviarEmailSemDimensoes(id: ProductId) returns (enviado: bool)
      modifies this`emailsAlerta, site`outbox
      ensures old(emailsAlerta) == [] || id !in site.products ==>
        !enviado && emailsAlerta == old(emailsAlerta) && site.outbox == old(site.outbox)
      ensures old(emailsAlerta) != [] && id in site.products ==>
        emailsAlerta == ConfiguredRecipients(site.php, site.options)
        && site.outbox == old(site.outbox) + Mails(emailsAlerta, SemDimensoesMail(id))
        && (enviado <==> AnyDelivered(site.mailer, emailsAlerta, SemDimensoesMail(id)))
    {
      enviado := EnviarAlertaProduto(id, SemDimensoesMail(id));
    }

    /** enviar_email_resumo_consolidado(): reloads the list, then sends one
        summary per recipient unless there is nobody to tell or nothing to report. */
    method EnviarResumoConsolidado(tipo: string, dados: Problemas) returns (enviado: bool)
      modifies this`emailsAlerta, site`outbox
      ensures emailsAlerta == ConfiguredRecipients(site.php, site.options)
      ensures emailsAlerta == [] || Total(dados) == 0 ==> !enviado && site.outbox == old(site.outbox)
      ensures emailsAlerta != [] && Total(dados) != 0 ==>
        site.outbox == old(site.outbox) + Mails(emailsAlerta, ResumoMail(Titulo(tipo), Total(dados)))
        && (enviado <==> AnyDelivered(site.mailer, emailsAlerta, ResumoMail(Titulo(tipo), Total(dados))))
    {
      CarregarEmails();
      if emailsAlerta == [] {
        return false;
      }
      var total := Total(dados);
      if total == 0 {
        return false;
      }
      var titulo := Titulo(tipo);
      enviado := Broadcast(emailsAlerta, ResumoMail(titulo, total));
    }
  }
}
