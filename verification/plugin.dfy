/** The plugin's main class (DW_Verifica_Peso): the defaults written on
    activation, the scheduling of the consolidated summary, the two extra
    wp-cron recurrences and the cron handler. */
module Plugin {
  import opened Php
  import opened Catalog
  import opened Email

  const HourSeconds: int := 3600
  const DaySeconds: int := 86400
  const WeekSeconds: int := 604800

  const FrequencyOption: string := "dw_peso_frequencia_email"
  const HourOption: string := "dw_peso_email_hora"

  /** min(23, max(0, h)). */
  function ClampHora(h: int): (r: int)
    ensures 0 <= r <= 23
    ensures 0 <= h <= 23 ==> r == h
    ensures h < 0 ==> r == 0
    ensures h > 23 ==> r == 23
  {
    if h < 0 then 0 else if h > 23 then 23 else h
  }

  /** Clamping twice is clamping once. */
  lemma ClampHoraIdempotent(h: int)
    ensures ClampHora(ClampHora(h)) == ClampHora(h)
  {
  }

  /** The send hour configured: (int) get_option('dw_peso_email_hora', 8), clamped. */
  function SendHour(php: Runtime, opts: Options): (h: int)
    ensures 0 <= h <= 23
    ensures HourOption !in opts ==> h == 8
  {
    ClampHora(IntOption(php, opts, HourOption, 8))
  }

  /** The first run: today at the send hour when that is still ahead, else
      the same hour tomorrow. WordPress keeps PHP's clock in UTC and
      current_time('timestamp') already carries the site's offset, so
      "today" starts at the last multiple of a day. */
  function FirstRun(now: int, hora: int): (t: int)
    requires 0 <= hora <= 23
    ensures now < t <= now + DaySeconds
    ensures t % DaySeconds == hora * HourSeconds
  {
    var today := now - now % DaySeconds + hora * HourSeconds;
    if today <= now then today + DaySeconds else today
  }

  /** The recurrence scheduled for a frequency, compared with ===:
      'diario' is daily, 'semanal' weekly, anything else monthly. */
  function Recurrence(opts: Options): (r: string)
    ensures r in {"daily", "weekly", "monthly"}
    ensures r == "daily" <==> OptionIs(opts, FrequencyOption, "diario", "diario")
    ensures r == "weekly" <==> OptionIs(opts, FrequencyOption, "diario", "semanal")
  {
    if OptionIs(opts, FrequencyOption, "diario", "diario") then "daily"
    else if OptionIs(opts, FrequencyOption, "diario", "semanal") then "weekly"
    else "monthly"
  }

  /** The frequency text handed to the summary mail. */
  function FrequencyText(php: Runtime, opts: Options): string {
    TextOf(php, opts, FrequencyOption, "diario")
  }

  /** The summary is off: the frequency is exactly 'nenhum'. */
  predicate SummaryOff(opts: Options) {
    OptionIs(opts, FrequencyOption, "diario", "nenhum")
  }

  /** The event agendar_email_resumo_ativacao() leaves scheduled. */
  function SummarySchedule(php: Runtime, opts: Options, now: int): (e: Option<CronEvent>)
    ensures e.None? <==> SummaryOff(opts)
    ensures e.Some? ==> now < e.value.first <= now + DaySeconds
    ensures e.Some? ==> e.value.first % DaySeconds == SendHour(php, opts) * HourSeconds
    ensures e.Some? ==> (e.value.recurrence == "daily" <==> OptionIs(opts, FrequencyOption, "diario", "diario"))
  {
    if SummaryOff(opts) then None
    else Some(CronEvent(FirstRun(now, SendHour(php, opts)), Recurrence(opts)))
  }

  /** A wp-cron recurrence: its interval in seconds and its label. */
  datatype Schedule = Schedule(interval: int, display: string)

  /** adicionar_cron_schedules(): 'weekly' every 7 days and 'monthly' every
      30 days; every other recurrence is kept. */
  function AdicionarCronSchedules(schedules: map<string, Schedule>): (r: map<string, Schedule>)
    ensures r.Keys == schedules.Keys + {"weekly", "monthly"}
    ensures r["weekly"].interval == WeekSeconds && r["monthly"].interval == 30 * DaySeconds
    ensures forall k :: k in schedules && k != "weekly" && k != "monthly" ==> r[k] == schedules[k]
  {
    schedules["weekly" := Schedule(WeekSeconds, "Uma vez por semana")]
             ["monthly" := Schedule(30 * DaySeconds, "Uma vez por mês")]
  }

  /** The period each frequency promises: a day, a week, 30 days. */
  function Period(opts: Options): int {
    if OptionIs(opts, FrequencyOption, "diario", "diario") then DaySeconds
    else if OptionIs(opts, FrequencyOption, "diario", "semanal") then WeekSeconds
    else 30 * DaySeconds
  }

  /** Whatever recurrence the plugin schedules is registered once the
      filter ran over WordPress's own schedules, and repeats with the
      period of the chosen frequency. */
  lemma RecurrenceRegistered(schedules: map<string, Schedule>, opts: Options)
    requires "daily" in schedules && schedules["daily"].interval == DaySeconds
    ensures Recurrence(opts) in AdicionarCronSchedules(schedules)
    ensures AdicionarCronSchedules(schedules)[Recurrence(opts)].interval == Period(opts)
  {
  }

  /** The options ativar_plugin() writes when they are absent. */
  function ActivationDefaults(opts: Options): (r: Options)
    ensures r.Keys == opts.Keys + {"dw_peso_maximo", "dw_peso_minimo", FrequencyOption, HourOption}
    ensures forall k :: k in opts ==> r[k] == opts[k]
    ensures "dw_peso_maximo" !in opts ==> r["dw_peso_maximo"] == NumberOption(20.0)
    ensures "dw_peso_minimo" !in opts ==> r["dw_peso_minimo"] == NumberOption(0.01)
    ensures FrequencyOption !in opts ==> r[FrequencyOption] == TextOption("diario")
    ensures HourOption !in opts ==> r[HourOption] == NumberOption(8.0)
  {
    var o1 := if "dw_peso_maximo" in opts then opts else opts["dw_peso_maximo" := NumberOption(20.0)];
    var o2 := if "dw_peso_minimo" in o1 then o1 else o1["dw_peso_minimo" := NumberOption(0.01)];
    var o3 := if FrequencyOption in o2 then o2 else o2[FrequencyOption := TextOption("diario")];
    if HourOption in o3 then o3 else o3[HourOption := NumberOption(8.0)]
  }

  /** On a fresh site, activation stores the documented defaults: a daily
      summary at 8 o'clock and the weight range [0.01, 20]. */
  lemma ActivationOnFreshSite(php: Runtime, opts: Options)
    requires "dw_peso_maximo" !in opts && "dw_peso_minimo" !in opts && FrequencyOption !in opts && HourOption !in opts
    ensures var r := ActivationDefaults(opts);
      r["dw_peso_maximo"] == NumberOption(20.0) && r["dw_peso_minimo"] == NumberOption(0.01)
      && Recurrence(r) == "daily" && !SummaryOff(r) && SendHour(php, r) == 8
  {
    var r := ActivationDefaults(opts);
    assert r[HourOption] == NumberOption(8.0);
    assert r[FrequencyOption] == TextOption("diario");
  }

  /** Activation never changes an option that already exists, so running
      it again writes nothing new. */
  lemma ActivationIdempotent(opts: Options)
    ensures ActivationDefaults(ActivationDefaults(opts)) == ActivationDefaults(opts)
  {
  }

  class VerificaPeso {
    const site: Site

    constructor (site: Site)
      ensures this.site == site
    {
      this.site := site;
    }

    /** ativar_plugin(): the defaults, then the summary schedule. */
    method AtivarPlugin(now: int)
      modifies site`options, site`summaryEvent
      ensures site.options == ActivationDefaults(old(site.options))
      ensures site.summaryEvent == SummarySchedule(site.php, site.options, now)
    {
      if "dw_peso_maximo" !in site.options {
        site.UpdateOption("dw_peso_maximo", NumberOption(20.0));
      }
      if "dw_peso_minimo" !in site.options {
        site.UpdateOption("dw_peso_minimo", NumberOption(0.01));
      }
      if FrequencyOption !in site.options {
        site.UpdateOption(FrequencyOption, TextOption("diario"));
      }
      if HourOption !in site.options {
        site.UpdateOption(HourOption, NumberOption(8.0));
      }
      AgendarEmailResumoAtivacao(now);
    }

    /** agendar_email_resumo_ativacao(): clears the event, then schedules
        it again unless the summary is off. */
    method AgendarEmailResumoAtivacao(now: int)
      modifies site`summaryEvent
      ensures site.summaryEvent == SummarySchedule(site.php, site.options, now)
    {
      var hora := ClampHora(IntOption(site.php, site.options, HourOption, 8));
      site.summaryEvent := None;
      if OptionIs(site.options, FrequencyOption, "diario", "nenhum") {
        return;
      }
      var timestamp := now - now % DaySeconds + hora * HourSeconds;
      if timestamp <= now {
        timestamp := timestamp + DaySeconds;
      }
      site.summaryEvent := Some(CronEvent(timestamp, Recurrence(site.options)));
    }

    /** desativar_plugin(): the event is cleared. */
    method DesativarPlugin()
      modifies site`summaryEvent
      ensures site.summaryEvent == None
    {
      site.summaryEvent := None;
    }

    /** executar_envio_resumo_email(): nothing when the summary is off;
        otherwise the consolidated summary for the configured frequency. */
    method ExecutarEnvioResumoEmail(email: EmailNotifier, dados: Problemas)
      requires email.site == site
      modifies email`emailsAlerta, site`outbox
      ensures SummaryOff(site.options) ==> site.outbox == old(site.outbox) && email.emailsAlerta == old(email.emailsAlerta)
      ensures !SummaryOff(site.options) ==>
        email.emailsAlerta == ConfiguredRecipients(site.php, site.options)
        && (email.emailsAlerta == [] || Total(dados) == 0 ==> site.outbox == old(site.outbox))
        && (email.emailsAlerta != [] && Total(dados) != 0 ==>
              site.outbox == old(site.outbox) + Mails(email.emailsAlerta, ResumoMail(Titulo(FrequencyText(site.php, site.options)), Total(dados))))
    {
      if OptionIs(site.options, FrequencyOption, "diario", "nenhum") {
        return;
      }
      var _ := email.EnviarResumoConsolidado(FrequencyText(site.php, site.options), dados);
    }
  }
}
