# DW Verifica Peso — a verified model of the alert flags

DW Verifica Peso is a WooCommerce plugin. It watches each product's weight
and its three dimensions (largura, altura and comprimento, i.e. width,
height and length) and records what it finds as post meta on the product:

- `_dw_produto_sem_peso` / `_dw_produto_sem_peso_data`: the weight is missing.
- `_dw_peso_alerta` / `_dw_peso_alerta_data`: the weight is outside the
  configured `[dw_peso_minimo, dw_peso_maximo]`.
- `_dw_produto_sem_dimensoes` / `_dw_produto_sem_dimensoes_data`: all three
  dimensions are missing.
- `_dw_dimensoes_alerta` / `_dw_dimensoes_alerta_data`: the serialized map of
  the dimensions that are outside their own bounds.

These flags are written by several parts of the plugin:

- the product save hooks;
- the admin's bulk actions and the two quick-edit handlers;
- the "re-analyse all products" pass.

The flags feed admin notices, per-product alert mails and a consolidated
summary mail sent by wp-cron. The settings page stores the bounds, the
alert addresses and the default weight. Each option goes through the
sanitize callback WordPress registers for it.

The model is in Dafny. There is one module per source class, plus two
shared modules:

| module | file | models |
|---|---|---|
| `Php` | php.dfy | PHP truthiness of strings, `trim`, `explode`/`implode`, one-character `str_replace`, the `(int)` cast; `floatval`, `is_email` and the like are the abstract fields of `Runtime` |
| `Catalog` | catalog.dfy | products, the eight flag keys, post meta, options, notices, mails, and the `Site` class whose fields hold WordPress's state |
| `Limits` | limits.dfy | the range test, the bounds read from the options, the dimension alert and the list of missing dimensions |
| `Email` | email.dfy | `DW_Verifica_Peso_Email` |
| `WeightValidator` | validator.dfy | `DW_Verifica_Peso_Validator` |
| `DimensionValidator` | validator_dimensoes.dfy | `DW_Verifica_Peso_Validator_Dimensoes` |
| `AdminColumns` | admin_columns.dfy | the two list-table column filters of `DW_Verifica_Peso_Admin` |
| `Admin` | admin.dfy | the rest of `DW_Verifica_Peso_Admin`: sanitize callbacks, settings save, bulk actions, quick edit, re-analysis driver |
| `Reanalysis` | reanalysis.dfy | the per-product decisions of the re-analysis, as written and corrected |
| `Plugin` | plugin.dfy | `DW_Verifica_Peso`: activation defaults, summary scheduling, cron recurrences and the cron handler |

Code that changes state is modelled as classes with `modifies` frames.
This covers the validators, the notifier, the admin and the plugin class.
Each method is proved against a pure function of the old state, and the
properties are proved about those functions.

The central property is that a product's flag group is *settled*:

- **Weight group** (`WeightSettled`):
  - a missing weight has a truthy missing flag and no alert;
  - a weight out of range has an alert holding it, and no missing flag;
  - a weight in range has none of the four keys.
- **Dimension group** (`DimensionsSettled`):
  - with all three dimensions missing, a truthy missing flag and no alert;
  - with some dimension out of range, exactly that alert and no missing flag;
  - otherwise none of the four keys.

The re-analysis is modelled twice. The code's own pass
(`ReanalysisRunAsWritten`) changes only the flags of listed products, and
leaves each of their groups settled or as it was; it can leave a group
unsettled, and it can count the same product on every run (see
"Findings"). The corrected pass (`ReanalysisRun`) leaves every listed
product settled. It reports a product as changed exactly when the product
was not settled before, and a second run changes nothing.

In five places the code behaves differently from what the flags and the
branch comments suggest; the model follows the code:

- **Save hooks and an old weight alert.** When a weight becomes missing,
  the save hooks set the missing flag but keep an old weight alert
  (`WeightHooksSettle`). Quick edit does the same when the weight is
  emptied (`QuickEditEmptyWeightKeepsAlert`).
- **Quick edit and missing dimensions.** Quick edit of the dimensions always
  clears the missing-dimensions flag. It never sets it, even when all three
  dimensions were cleared (`QuickEditClearedDimensionsUnflagged`).
- **Mails.** The dimension save hooks send their mail on every save that
  finds a problem, not only when the flag appears.
- **Decimal comma.** The re-analysis reads a decimal comma in the weight as
  a point. The save hooks use `floatval` on the text as it is.
- **Bounds check before sanitizing.** The settings page checks `min < max`
  on the posted values. The sanitizer then turns negative values into 0,
  so two negative weight bounds are stored as `[0, 0]`
  (`NegativeBoundsCollapse`).

## Model

| member | source | states |
|---|---|---|
| Php.Trim | includes/class-dw-verifica-peso-email.php:75 | every character dropped at the front and at the back is white space `trim()` strips, and the kept slice neither starts nor ends with such a character |
| Php.ImplodeExplode | includes/class-dw-verifica-peso-admin.php:267-276 | joining the pieces `explode(',')` returns gives back the original text |
| Php.ExplodeImplode | includes/class-dw-verifica-peso-admin.php:267-276 | splitting a comma-join of comma-free pieces gives back those pieces |
| Php.ReplaceChar | includes/class-dw-verifica-peso-admin.php:1345 | `str_replace(',', '.')` keeps the length, puts a point at every position that held a comma, keeps every other character, and is the identity on a text without a comma |
| Php.TruncateToInt | dw-verifica-peso.php:239 | the `(int)` cast truncates toward zero: the result is the integer part of the float, for either sign |
| Catalog.FloatOption | includes/class-dw-verifica-peso-validator.php:64-65 | `floatval(get_option(name, default))` is the default when the option is absent and the stored number when it holds one |
| Catalog.IntOption | dw-verifica-peso.php:239 | `(int) get_option(name, default)` is the default when the option is absent |
| Catalog.TextOf | includes/class-dw-verifica-peso-email.php:56 | an option read as text is the default when absent and the stored text when it holds one |
| Limits.Judge | includes/class-dw-verifica-peso-validator.php:152-160 | a present value is in range exactly when `min <= v <= max`; both bounds count as in range |
| Limits.Classify | includes/class-dw-verifica-peso-validator.php:144-160 | a measure is missing exactly when its text is falsy (`''` or `'0'`); it is in range exactly when it is present and its `floatval` lies within the bounds; otherwise it is abnormal with that value |
| Limits.WeightBounds | includes/class-dw-verifica-peso-validator.php:63-66 | the weight bounds default to 0.01 and 20 and are the stored numbers otherwise |
| Limits.DimOptionsDistinct | includes/class-dw-verifica-peso-validator-dimensoes.php:70-85 | the six dimension options are six different names, all outside the weight options |
| Limits.DimensionLimits | includes/class-dw-verifica-peso-validator-dimensoes.php:70-85 | each dimension's bounds are read from its own two options, defaulting to 0 and 100 |
| Limits.DimensionAlert | includes/class-dw-verifica-peso-validator-dimensoes.php:220-245 | the alert holds exactly the dimensions that are present and outside their own bounds, each with its `floatval`; a missing dimension is never in it |
| Limits.MissingDims | includes/class-dw-verifica-peso-validator-dimensoes.php:160-169 | the missing list names exactly the dimensions whose text is falsy, in the order largura, altura, comprimento |
| Limits.DimensionAlertBySteps | includes/class-dw-verifica-peso-validator-dimensoes.php:220-245 | the alert is what the three tests build, largura, then altura, then comprimento, each adding its dimension only when it is abnormal |
| Limits.Entries | includes/class-dw-verifica-peso-validator-dimensoes.php:118-158 | the problem list is empty exactly when the alert is |
| Limits.EntriesExact | includes/class-dw-verifica-peso-validator-dimensoes.php:118-158 | the problem list pairs exactly the alert's dimensions with their values, in dimension order |
| Limits.AllMissingMeansNoAlert | includes/class-dw-verifica-peso-validator-dimensoes.php:286-288 | a product without any dimension has an empty alert and a missing list naming all three dimensions |
| Limits.AllMissingIffThreeMissing | includes/class-dw-verifica-peso-validator-dimensoes.php:286-288 | `$sem_dimensoes` holds exactly when the missing list has three entries |
| Email.Dedup | includes/class-dw-verifica-peso-email.php:81 | `array_unique` keeps the same set of addresses, without repeats and never more of them, each at its first occurrence and in the order of those first occurrences |
| Email.DedupOfDistinct | includes/class-dw-verifica-peso-email.php:81 | a list without repeats passes `array_unique` unchanged |
| Email.DedupIdempotent | includes/class-dw-verifica-peso-email.php:81 | applying `array_unique` twice is the same as applying it once |
| Email.ValidEmailsMembers | includes/class-dw-verifica-peso-email.php:71-79 | an address is kept exactly when it is the sanitized form of a trimmed piece that `is_email` accepts |
| Email.Recipients | includes/class-dw-verifica-peso-email.php:66-82 | a falsy option text gives no recipients; otherwise the recipients are the valid addresses, without repeats |
| Email.RecipientsFromPieces | includes/class-dw-verifica-peso-email.php:71-79 | every recipient is the sanitized form of a trimmed piece of the text that `is_email` accepts |
| Email.Mails | includes/class-dw-verifica-peso-email.php:133-135 | one mail per recipient, in order, all on the same topic |
| Email.Total | includes/class-dw-verifica-peso-email.php:728-729 | the summary total is zero exactly when all four problem lists are empty, and it is at least the length of each list |
| Email.Titulo | includes/class-dw-verifica-peso-email.php:735-740 | 'semanal' and 'mensal' get their own titles; every other type gets the daily title |
| Email.EmailNotifier.constructor | includes/class-dw-verifica-peso-email.php:48-50 | a new notifier holds the recipients configured in the options |
| Email.EmailNotifier.SanitizarEmails | includes/class-dw-verifica-peso-email.php:66-82 | the loop returns exactly `Recipients` of the text, whose properties are the two rows above |
| Email.EmailNotifier.CarregarEmails | includes/class-dw-verifica-peso-email.php:55-58 | after a reload the notifier holds the recipients configured in the options |
| Email.EmailNotifier.Broadcast | includes/class-dw-verifica-peso-email.php:132-137 | every recipient gets the mail, in order, and the result is true exactly when `wp_mail` accepted at least one of them |
| Email.EmailNotifier.EnviarAlertaProduto | includes/class-dw-verifica-peso-email.php:91-101 | when the loaded list is empty or the product does not exist: false, no mail, and the list is not reloaded; when mailing, the list is reloaded from the options, every configured recipient gets the mail in order, and the result is true exactly when `wp_mail` accepted at least one of them |
| Email.EmailNotifier.EnviarEmailAlerta | includes/class-dw-verifica-peso-email.php:91-138 | the abnormal-weight mail under the same rule: no mail, false and the old list when the loaded list is empty or the product does not exist; otherwise the reloaded list, one mail per configured recipient, and true exactly when one was accepted |
| Email.EmailNotifier.EnviarEmailSemPeso | includes/class-dw-verifica-peso-email.php:146-186 | the same rule for the missing-weight mail |
| Email.EmailNotifier.EnviarEmailAlertaDimensoes | includes/class-dw-verifica-peso-email.php:344-390 | the same rule for the abnormal-dimensions mail, which carries the alert |
| Email.EmailNotifier.EnviarEmailSemDimensoes | includes/class-dw-verifica-peso-email.php:398-439 | the same rule for the missing-dimensions mail |
| Email.EmailNotifier.EnviarResumoConsolidado | includes/class-dw-verifica-peso-email.php:721-762 | the list is always reloaded; nothing is sent when there are no recipients or the total is zero; otherwise one summary per recipient, titled by the type and carrying the total |
| WeightValidator.SaveWeightEffect | includes/class-dw-verifica-peso-validator.php:119-161 | on an editable product save: a missing weight sets the missing flag and its date and keeps the alert and its date; an abnormal weight stores the alert with its value and date and keeps the missing flag and its date; a weight in range removes the alert, its date and the missing flag but keeps the missing flag's date; no other product or key changes |
| WeightValidator.MissingWeightEffect | includes/class-dw-verifica-peso-validator.php:170-194 | on a product save, the missing flag and its date exist afterwards exactly when the weight is falsy |
| WeightValidator.WeightNotices | includes/class-dw-verifica-peso-validator.php:88-110 | a falsy weight queues the missing-weight notice; an abnormal weight queues the abnormal notice with its value; a weight in range queues nothing |
| WeightValidator.PesoValidator.constructor | includes/class-dw-verifica-peso-validator.php:55-57 | a new validator holds the configured bounds |
| WeightValidator.PesoValidator.CarregarConfiguracoes | includes/class-dw-verifica-peso-validator.php:63-66 | the fields hold the configured weight bounds |
| WeightValidator.PesoValidator.GetPesoMaximo | includes/class-dw-verifica-peso-validator.php:286-289 | reloads, then returns the configured maximum |
| WeightValidator.PesoValidator.GetPesoMinimo | includes/class-dw-verifica-peso-validator.php:296-299 | reloads, then returns the configured minimum |
| WeightValidator.PesoValidator.ValidarPesoAntesSalvar | includes/class-dw-verifica-peso-validator.php:88-110 | the product is handed back unchanged; the notices grow by the weight's notice, and the bounds are reloaded only for a present weight |
| WeightValidator.PesoValidator.VerificarPesoAoSalvar | includes/class-dw-verifica-peso-validator.php:119-161 | the meta becomes `SaveWeightEffect` of the old meta; the bounds are reloaded only past the guards |
| WeightValidator.PesoValidator.VerificarProdutoSemPeso | includes/class-dw-verifica-peso-validator.php:170-194 | the meta becomes `MissingWeightEffect` of the old meta |
| WeightValidator.PesoValidator.RegistrarAlerta | includes/class-dw-verifica-peso-validator.php:202-208 | the alert holds the weight and its date is now |
| WeightValidator.PesoValidator.RegistrarProdutoSemPeso | includes/class-dw-verifica-peso-validator.php:215-221 | the missing flag is '1' and its date is now |
| WeightValidator.WeightHooksOutcome | includes/class-dw-verifica-peso-validator.php:71-79 | after both save hooks: a missing weight has the flag and keeps its old alert; an abnormal weight has its alert and no missing flag or date; a weight in range has none of the four keys |
| DimensionValidator.SaveDimensionsEffect | includes/class-dw-verifica-peso-validator-dimensoes.php:189-261 | on an editable save of an existing product, a non-empty alert is stored with its date and an empty one removes both alert keys; nothing else changes |
| DimensionValidator.MissingDimensionsEffect | includes/class-dw-verifica-peso-validator-dimensoes.php:270-309 | the missing-dimensions flag and its date exist afterwards exactly when all three dimensions are missing |
| DimensionValidator.DimensionNotices | includes/class-dw-verifica-peso-validator-dimensoes.php:160-177 | one notice per non-empty list, so exactly as many notices as there are non-empty lists: the missing list first and the problem list last; none exactly when nothing is missing and nothing is out of range |
| DimensionValidator.DimensoesValidator.constructor | includes/class-dw-verifica-peso-validator-dimensoes.php:62-64 | a new validator holds the configured limits |
| DimensionValidator.DimensoesValidator.CarregarConfiguracoes | includes/class-dw-verifica-peso-validator-dimensoes.php:70-85 | the fields hold the configured dimension limits |
| DimensionValidator.DimensoesValidator.GetLimites | includes/class-dw-verifica-peso-validator-dimensoes.php:394-401 | reloads, then returns the configured limits |
| DimensionValidator.DimensoesValidator.BuildAlert | includes/class-dw-verifica-peso-validator-dimensoes.php:220-245 | the three checks build exactly `DimensionAlert` |
| DimensionValidator.DimensoesValidator.ListProblems | includes/class-dw-verifica-peso-validator-dimensoes.php:118-158 | the three checks build exactly the ordered problem list |
| DimensionValidator.DimensoesValidator.ListMissing | includes/class-dw-verifica-peso-validator-dimensoes.php:160-169 | the three checks build exactly the ordered missing list |
| DimensionValidator.DimensoesValidator.ValidarDimensoesAntesSalvar | includes/class-dw-verifica-peso-validator-dimensoes.php:107-180 | the product is handed back unchanged; for a product, the limits are reloaded and the notices grow by `DimensionNotices` |
| DimensionValidator.DimensoesValidator.Avisar | includes/class-dw-verifica-peso-validator-dimensoes.php:171-176 | the missing-dimensions notice is queued exactly when the missing list is non-empty, then the abnormal-dimensions notice exactly when the problem list is non-empty |
| DimensionValidator.DimensoesValidator.GravarAlerta | includes/class-dw-verifica-peso-validator-dimensoes.php:250-260 | a non-empty alert is stored with its date; when the loaded list was not empty it is mailed to every configured recipient and the notifier holds the reloaded list; an empty alert deletes both alert keys; whenever nothing is mailed, the outbox and the notifier's list are as they were |
| DimensionValidator.DimensoesValidator.AvisarDimensoes | includes/class-dw-verifica-peso-validator-dimensoes.php:171-177 | the notices grow by exactly `DimensionNotices` |
| DimensionValidator.DimensoesValidator.VerificarDimensoesAoSalvar | includes/class-dw-verifica-peso-validator-dimensoes.php:189-261 | the meta becomes `SaveDimensionsEffect`; the limits are reloaded past the guards and kept on the guard path; the abnormal-dimensions mail goes to every configured recipient, and the notifier holds the reloaded list, exactly when an alert is stored and the loaded list was not empty; otherwise the outbox and the list are as they were |
| DimensionValidator.DimensoesValidator.VerificarProdutoSemDimensoes | includes/class-dw-verifica-peso-validator-dimensoes.php:270-309 | the meta becomes `MissingDimensionsEffect`; the missing-dimensions mail goes to every configured recipient, and the notifier holds the reloaded list, exactly when all three dimensions are missing and the loaded list was not empty; otherwise the outbox and the list are as they were |
| DimensionValidator.DimensoesValidator.AoSalvarProduto | includes/class-dw-verifica-peso-validator-dimensoes.php:90-98 | both `save_post_product` callbacks in registration order on one notifier: the meta becomes the combined effect; no dimension at all mails the missing-dimensions notice, an editable save with an alert mails the alert, each to every configured recipient when the loaded list was not empty; otherwise nothing is sent and the list is kept |
| DimensionValidator.DimensoesValidator.RegistrarAlerta | includes/class-dw-verifica-peso-validator-dimensoes.php:317-323 | the serialized alert and its date are stored |
| DimensionValidator.DimensoesValidator.RegistrarProdutoSemDimensoes | includes/class-dw-verifica-peso-validator-dimensoes.php:330-336 | the missing flag is '1' and its date is now |
| DimensionValidator.DimensionHooksOutcome | includes/class-dw-verifica-peso-validator-dimensoes.php:90-98 | after both save hooks, the missing flag exists exactly when all dimensions are missing, and the alert is exactly the current one |
| AdminColumns.IndexOfKey | includes/class-dw-verifica-peso-admin.php:408-409 | the position of the first entry with the key, and -1 exactly when the key is absent |
| AdminColumns.Assign | includes/class-dw-verifica-peso-admin.php:410 | `$cols[$k] = $v` keeps the keys distinct: an existing key is relabelled in place, and a new key goes at the end |
| AdminColumns.InsertBeforeKey | includes/class-dw-verifica-peso-admin.php:406-417 | the copying loop puts the column right before the anchor, or at the end when there is no anchor; the keys stay distinct |
| AdminColumns.InsertAfterKey | includes/class-dw-verifica-peso-admin.php:468-474 | the copying loop puts the column right after the anchor, and adds nothing when there is no anchor |
| AdminColumns.AdicionarColunaPeso | includes/class-dw-verifica-peso-admin.php:404-420 | the weight column appears once, right before `sku` or at the end |
| AdminColumns.AdicionarColunaDimensoes | includes/class-dw-verifica-peso-admin.php:466-494 | the dimensions column appears once: right after the weight column, else right before `sku`, else at the end |
| Admin.SanitizedWeight | includes/class-dw-verifica-peso-admin.php:238-253 | the stored number is never negative, and a non-negative value is kept as it is |
| Admin.SanitizedWeightIdempotent | includes/class-dw-verifica-peso-admin.php:238-253 | a sanitized number passes the sanitizer unchanged, so a second run (as in `add_option`) changes nothing |
| Admin.WeightMessages | includes/class-dw-verifica-peso-admin.php:242-249 | the 'peso_invalido' error is raised exactly for a negative value |
| Admin.SanitizedEmailsText | includes/class-dw-verifica-peso-admin.php:261-277 | a falsy text is stored as '' |
| Admin.SanitizedEmailsKeepRecipients | includes/class-dw-verifica-peso-admin.php:261-277 | the text stored by the settings sanitizer gives the notifier the same recipients as the text that was typed in |
| Admin.ValidEmailsOfStable | includes/class-dw-verifica-peso-email.php:71-79 | addresses that are already trimmed, valid and sanitized pass the filter unchanged |
| Admin.ReadSettings | includes/class-dw-verifica-peso-admin.php:300-329 | a field that was not posted takes the documented default: 20, 0.01, 'calculado', and 0 and 100 for the dimensions |
| Admin.NormalizedTipo | includes/class-dw-verifica-peso-admin.php:318-321 | the type is 'calculado' or 'fixo', and either of those is kept |
| Admin.DimensionErrors | includes/class-dw-verifica-peso-admin.php:332-355 | one 'dimensao_invalida' error per dimension whose minimum is not below its maximum; none exactly when all three pairs are ordered |
| Admin.SavedDimensionOptionsFrame | includes/class-dw-verifica-peso-admin.php:365-370 | the dimension writes leave every option outside the six dimension options as it was |
| Admin.SavedDimensionOptionsRead | includes/class-dw-verifica-peso-admin.php:365-370 | each dimension bound reads back as its sanitized posted value |
| Admin.WrittenWeightOptions | includes/class-dw-verifica-peso-admin.php:357-362 | after the six weight options are written, the bounds, the addresses, the type and the two default-weight numbers read back exactly the written values |
| Admin.SavedOptionsReadBack | includes/class-dw-verifica-peso-admin.php:357-370 | after a save the validators read the sanitized bounds (all non-negative), the sanitized addresses, the normalized type and the sanitized default-weight numbers |
| Admin.NegativeBoundsCollapse | includes/class-dw-verifica-peso-admin.php:308-316 | two negative weight bounds pass the check and are stored as [0, 0], so every positive weight is out of range afterwards |
| Admin.DefaultWeight | includes/class-dw-verifica-peso-admin.php:703-723 | a non-empty custom value that `is_numeric` accepts wins, read by `floatval` after the comma replacement (which changes nothing in PHP, where a text with a comma is not numeric, so such a value falls through to the settings); otherwise a 'fixo' type gives the fixed weight (default 0.5), and any other type the minimum weight plus the configured offset (default 0.5) |
| Admin.DefaultWeightAfterSave | includes/class-dw-verifica-peso-admin.php:705-723 | after a save, the default weight taken from the settings is never negative; a calculated one is never below the minimum, so it is abnormal exactly when it exceeds the maximum |
| Admin.DeleteForAll | includes/class-dw-verifica-peso-admin.php:683-701 | the given keys are gone for every listed product and nothing else changes |
| Admin.PositiveWeightFlags | includes/class-dw-verifica-peso-admin.php:731-746 | after writing a positive weight: no missing flag, and the alert with its date exactly when the weight is out of range |
| Admin.EditedDimensionFlags | includes/class-dw-verifica-peso-admin.php:917-962 | after a dimensions quick edit: no missing flag, and the alert with its date exactly when the alert is non-empty |
| Admin.DefaultWeightMetaOutcome | includes/class-dw-verifica-peso-admin.php:725-748 | after set_default_weight, every listed product that exists has the flags of the new weight, a weight that is not positive changes nothing, and no other product changes |
| Admin.WithWeight | includes/class-dw-verifica-peso-admin.php:725-730 | every listed product that exists gets the weight text, and the others are untouched |
| Admin.QuickDimText | includes/class-dw-verifica-peso-admin.php:894-913 | an empty input, or one that does not parse to a positive number, clears the dimension |
| Admin.QuickEditEmptyWeightKeepsAlert | includes/class-dw-verifica-peso-admin.php:784-790 | emptying the weight keeps the old alert, so the weight group is settled afterwards only when there was no alert and no alert date |
| Admin.QuickEditClearedDimensionsUnflagged | includes/class-dw-verifica-peso-admin.php:894-920 | clearing all three dimensions leaves a product with no dimension and no missing flag, so its dimension group is not settled |
| Admin.PesoAdmin.SanitizarPeso | includes/class-dw-verifica-peso-admin.php:238-253 | returns the sanitized number and queues the error only for a negative value |
| Admin.PesoAdmin.SanitizarEmails | includes/class-dw-verifica-peso-admin.php:261-277 | the loop returns `SanitizedEmailsText`, whose recipients are those of the input |
| Admin.PesoAdmin.UpdateNumberOption | includes/class-dw-verifica-peso-admin.php:110-118 | `update_option` of a number stores the sanitized value and queues the sanitizer's error |
| Admin.PesoAdmin.SalvarConfiguracoes | includes/class-dw-verifica-peso-admin.php:299-384 | with the weight minimum not below the maximum, only the error is queued and no option changes; otherwise all twelve options are written through their callbacks, and the queue holds the dimension errors, then the sanitizer errors, then the success message |
| Admin.PesoAdmin.AvisarDimensoesInvalidas | includes/class-dw-verifica-peso-admin.php:332-355 | the queue grows by exactly `DimensionErrors` |
| Admin.PesoAdmin.SalvarPesos | includes/class-dw-verifica-peso-admin.php:357-362 | the six weight, e-mail and default-weight options take their sanitized values |
| Admin.PesoAdmin.SalvarDimensoes | includes/class-dw-verifica-peso-admin.php:365-370 | the six dimension options take their sanitized values |
| Admin.PesoAdmin.RemoverFlags | includes/class-dw-verifica-peso-admin.php:683-701 | the loop removes the given keys for every listed product and changes nothing else |
| Admin.PesoAdmin.DefinirPesoPadrao | includes/class-dw-verifica-peso-admin.php:725-748 | the loop gives every listed product that exists the weight and its flags, and only when the weight is positive |
| Admin.PesoAdmin.AplicarPesoPadrao | includes/class-dw-verifica-peso-admin.php:726-746 | one product: the weight is saved and the flags become `PositiveWeightFlags` |
| Admin.PesoAdmin.ExecutarAcaoMassa | includes/class-dw-verifica-peso-admin.php:681-755 | 'remove_flags' and 'remove_flags_dimensoes' delete their group for every listed product; 'set_default_weight' writes the default weight; any other action changes nothing |
| Admin.PesoAdmin.SalvarPesoRapido | includes/class-dw-verifica-peso-admin.php:799-823 | the weight is saved as the text of the number and the missing flags are cleared; the alert is stored with its date exactly when the weight is out of range, and cleared otherwise; the mail goes to every configured recipient, with the list reloaded, exactly when the alert is stored and the loaded list was not empty; otherwise the outbox and the list are as they were |
| Admin.PesoAdmin.AjaxQuickEdit | includes/class-dw-verifica-peso-admin.php:760-838 | id 0 or an unknown product is refused and nothing changes; an empty weight is cleared and flagged as missing; a weight that is not positive is refused; any other weight is saved, the missing flag is cleared, and the alert and its mail come exactly when the weight is out of range; the notifier's list is reloaded exactly when a mail is sent and kept on every other path |
| Admin.PesoAdmin.AjaxQuickEditDimensoes | includes/class-dw-verifica-peso-admin.php:868-974 | an unknown product is refused; otherwise each dimension is saved from its input, the missing flag is cleared, and the alert is rebuilt from the saved dimensions |
| Admin.PesoAdmin.AtualizarFlagsDimensoes | includes/class-dw-verifica-peso-admin.php:917-962 | the flags become `EditedDimensionFlags` |
| Admin.PesoAdmin.ReanalisarTodosProdutos | includes/class-dw-verifica-peso-admin.php:1301-1452 | every id counts as processed and at most that many are changed; the meta and the change count are those of the code's pass `ReanalysisRunAsWritten`; only the flag keys of listed products change, and each of their groups ends settled or as it was |
| Admin.PesoAdmin.ReanalisarPeso | includes/class-dw-verifica-peso-admin.php:1332-1368 | the weight branch, with its truthiness tests of the stored flag and alert, computes exactly `ReconcileWeightAsWritten` |
| Admin.PesoAdmin.ReanalisarDimensoes | includes/class-dw-verifica-peso-admin.php:1370-1435 | the dimension branch, with its truthiness tests and its comparison with the stored alert, computes exactly `ReconcileDimensionsAsWritten` |
| Reanalysis.ReanalysisWeight | includes/class-dw-verifica-peso-admin.php:1345 | for a weight without a comma, the number read equals `floatval` of the weight |
| Reanalysis.ReconcileWeightAsWritten | includes/class-dw-verifica-peso-admin.php:1332-1368 | the code's weight branch touches only the product's weight keys, leaves the meta as it was when it reports no change, and leaves the group settled when it rewrites |
| Reanalysis.ReconcileWeight | includes/class-dw-verifica-peso-admin.php:1332-1368 | the corrected weight branch touches only the weight keys, leaves the group settled, and reports a change exactly when the group was not settled before |
| Reanalysis.ReconcileDimensionsAsWritten | includes/class-dw-verifica-peso-admin.php:1370-1435 | the code's dimension branch touches only the dimension keys, changes nothing when it reports no change, and leaves the group settled when it rewrites |
| Reanalysis.ReconcileDimensions | includes/class-dw-verifica-peso-admin.php:1370-1435 | the corrected dimension branch leaves the group settled and reports a change exactly when it was not settled before |
| Reanalysis.ReconcileProductAsWritten | includes/class-dw-verifica-peso-admin.php:1327-1439 | the code's step for one product: only its eight flag keys change, nothing changes when it reports no change, and each group ends settled or as it was |
| Reanalysis.ReanalysisAsWrittenBounds | includes/class-dw-verifica-peso-admin.php:1301-1452 | the code's pass counts at most one change per id, changes no unlisted product and no other key, and leaves each group of a listed product settled or as it was |
| Reanalysis.RunOfOne | includes/class-dw-verifica-peso-admin.php:1301-1452 | a pass over one listed product is that product's step, counted once when it changed |
| Reanalysis.ReconcileProduct | includes/class-dw-verifica-peso-admin.php:1327-1439 | one product: only its eight flag keys change, both groups end settled, and it counts as changed exactly when one of them was not settled |
| Reanalysis.ProductChangedIffDiffers | includes/class-dw-verifica-peso-admin.php:1327-1439 | a product counts as changed exactly when its flags differ afterwards |
| Reanalysis.ReanalysisSettles | includes/class-dw-verifica-peso-admin.php:1301-1452 | after the pass every listed product has both groups settled, at most one change is counted per id, and no unlisted product and no other key changes |
| Reanalysis.ReanalysisOfSettled | includes/class-dw-verifica-peso-admin.php:1301-1452 | a pass over settled products changes nothing and counts nothing |
| Reanalysis.ReanalysisIdempotent | includes/class-dw-verifica-peso-admin.php:1301-1452 | a second pass with the same measures and limits changes nothing and reports no product as changed |
| Reanalysis.WeightHooksSettle | includes/class-dw-verifica-peso-validator.php:119-194 | after both save hooks, a present weight without a decimal comma is settled; a missing weight is settled exactly when the product had no alert and no alert date |
| Reanalysis.DimensionHooksSettle | includes/class-dw-verifica-peso-validator-dimensoes.php:189-309 | after both save hooks, the dimension group is settled |
| Reanalysis.StaleMissingFlagBesideAlert | includes/class-dw-verifica-peso-admin.php:1349-1358 | weight 25 above 20 with a matching alert and a leftover missing flag: the code reports no change, the group is not settled, and the corrected branch rewrites it |
| Reanalysis.StaleMissingFlagBesideDimensionAlert | includes/class-dw-verifica-peso-admin.php:1414-1424 | width 150 above 100 with the same alert stored and a leftover missing flag: the code reports no change, the group is not settled, and the corrected branch rewrites it |
| Reanalysis.ZeroWeightAlertNeverSettles | includes/class-dw-verifica-peso-admin.php:1349-1352 | weight "0.0" below 0.01: the code stores an alert of 0 and rewrites it again on the next run; the corrected branch is stable after one run |
| Reanalysis.ZeroWeightAlertWritten | includes/class-dw-verifica-peso-admin.php:1349-1352 | weight "0.0" below 0.01 with a falsy stored alert: the code writes an alert of 0 and reports a change |
| Reanalysis.ZeroWeightStep | includes/class-dw-verifica-peso-admin.php:1327-1439 | the same for the whole product step: it counts as changed and leaves an alert of 0 |
| Reanalysis.ZeroWeightCountedOnEveryRun | includes/class-dw-verifica-peso-admin.php:1301-1452 | a product with weight "0.0" is counted as changed by the first and by the second run of the code's pass, while a second corrected pass counts nothing |
| Reanalysis.ZeroAlertKeptWhenWeightMissing | includes/class-dw-verifica-peso-admin.php:1334-1337 | an alert of 0 beside the missing flag of a product without weight is never removed by the code; the corrected branch removes it |
| Plugin.ClampHora | dw-verifica-peso.php:239-240 | the hour is within 0..23, and an hour already in range is kept |
| Plugin.ClampHoraIdempotent | dw-verifica-peso.php:239-240 | clamping twice is clamping once |
| Plugin.SendHour | dw-verifica-peso.php:238-240 | the send hour is within 0..23 and is 8 when the option is absent |
| Plugin.FirstRun | dw-verifica-peso.php:247-250 | the first run is strictly after now and at most a day later, at the configured hour of its day |
| Plugin.Recurrence | dw-verifica-peso.php:251 | 'diario' is daily and 'semanal' weekly, compared strictly; anything else is monthly |
| Plugin.SummarySchedule | dw-verifica-peso.php:237-253 | no event exactly when the frequency is 'nenhum'; otherwise the first run is within the next day at the send hour, and the recurrence is daily exactly for 'diario' |
| Plugin.AdicionarCronSchedules | dw-verifica-peso.php:273-283 | 'weekly' (7 days) and 'monthly' (30 days) are added and every other recurrence is kept |
| Plugin.RecurrenceRegistered | dw-verifica-peso.php:273-283 | whatever recurrence is scheduled is registered once the filter ran, with the period of the chosen frequency |
| Plugin.ActivationDefaults | dw-verifica-peso.php:211-232 | activation adds each of the four options that is absent with its own default (maximum 20, minimum 0.01, frequency 'diario', hour 8), whether or not the others exist, and never changes an option that exists |
| Plugin.ActivationOnFreshSite | dw-verifica-peso.php:211-232 | on a fresh site, activation gives the range [0.01, 20] and a daily summary at 8 |
| Plugin.ActivationIdempotent | dw-verifica-peso.php:211-232 | activating a second time writes nothing new |
| Plugin.VerificaPeso.AtivarPlugin | dw-verifica-peso.php:211-232 | the options become `ActivationDefaults` and the summary event is scheduled from them |
| Plugin.VerificaPeso.AgendarEmailResumoAtivacao | dw-verifica-peso.php:237-253 | the event is cleared, then becomes `SummarySchedule` |
| Plugin.VerificaPeso.DesativarPlugin | dw-verifica-peso.php:258-265 | the summary event is cleared |
| Plugin.VerificaPeso.ExecutarEnvioResumoEmail | dw-verifica-peso.php:288-297 | nothing happens when the frequency is 'nenhum'; otherwise the summary for the configured frequency is sent to the reloaded recipients |

## Findings

| source | as written | input that shows it | evidently intended | confidence | as-written member | corrected member |
|---|---|---|---|---|---|---|
| includes/class-dw-verifica-peso-admin.php:1349-1358 | for a weight out of range, the flags are rewritten only when the alert is falsy or differs by more than 0.0001 | weight "25" with bounds [0.01, 20]; the meta holds the missing flag '1' and the alert 25 | the missing flag is removed whenever the weight is present, as the branch's own comment says | high, not executed | Reanalysis.ReconcileWeightAsWritten, Reanalysis.StaleMissingFlagBesideAlert | Reanalysis.ReconcileWeight |
| includes/class-dw-verifica-peso-admin.php:1414-1424 | for dimensions out of range, the flags are rewritten only when the stored alert differs | width "150" with bounds [0, 100]; the meta holds the missing flag '1' and the alert {largura: 150} | the missing-dimensions flag is removed whenever the product has a dimension | high, not executed | Reanalysis.ReconcileDimensionsAsWritten, Reanalysis.StaleMissingFlagBesideDimensionAlert | Reanalysis.ReconcileDimensions |
| includes/class-dw-verifica-peso-admin.php:1349-1352 | the stored alert is judged by its truthiness, and an alert of 0 reads back as the falsy "0" | weight "0.0" with bounds [0.01, 20]: every run rewrites the alert and counts the product as changed | a stored alert counts as present; a second run changes nothing | high, not executed | Reanalysis.ReconcileWeightAsWritten, Reanalysis.ZeroWeightAlertNeverSettles, Reanalysis.ZeroWeightCountedOnEveryRun | Reanalysis.ReconcileWeight |
| includes/class-dw-verifica-peso-admin.php:1334-1337 | a product without weight keeps an alert whose value is falsy | empty weight; the meta holds the missing flag '1' and the alert 0 | a product without weight has no weight alert | medium, not executed | Reanalysis.ReconcileWeightAsWritten, Reanalysis.ZeroAlertKeptWhenWeightMissing | Reanalysis.ReconcileWeight |

The admin's re-analysis (`Admin.PesoAdmin.ReanalisarTodosProdutos`,
`Admin.PesoAdmin.ReanalisarPeso` and `Admin.PesoAdmin.ReanalisarDimensoes`)
is proved against the members that model the code as written. The corrected
members and the pass built from them (`ReanalysisRun`) are the reference
the findings are measured against.

## Left out

- The SQL queries that pick the products are not modelled. Neither are the
  queries of `coletar_produtos_com_problemas` and the reports. The ids and
  the four problem lists are parameters.
- HTML output is not modelled. This covers the admin pages and templates,
  the notice markup, the mail bodies, CSV export, the report view and the
  JavaScript.
- Transients (the caches cleared after each change) are not modelled.
- Nonce and capability checks of the AJAX and admin handlers, and redirects,
  are not modelled. The handlers are modelled from the point where those
  checks passed. The save hooks' own `current_user_can` check is a field of
  `SaveEvent`.
- `floatval`, `intval`, the float-to-text conversion, `is_numeric`,
  `is_email` and `sanitize_email` are kept abstract as the `Runtime`
  parameter. The clock (`current_time`) is a parameter `now`.
- Admin.SanitizedEmailsKeepRecipients: holds only under `WellBehavedEmails`,
  an assumption about WordPress that is not proved. It says that
  `sanitize_email` of an address `is_email` accepts gives an address that
  is already trimmed, accepted by `is_email`, free of commas, not falsy,
  and left unchanged by a second `sanitize_email`.
- `sanitize_text_field` and `sanitize_textarea_field` are taken as the
  identity on the texts the plugin reads.
- A float written to post meta is taken to read back as the same number.
  Only its truthiness follows PHP's text form: 0 reads back as "0".
- A serialized dimension alert is compared by its contents. The model does
  not identify a plain text that happens to equal a serialization with that
  alert.
- `WC_Product::save()` inside the bulk action and quick edit is taken not to
  fire the `save_post_product` hooks again.
- Admin.PesoAdmin.AjaxQuickEdit: the reply carries the saved weight text,
  not its `number_format` rendering.
- Admin.PesoAdmin.AjaxQuickEditDimensoes: the reply carries the saved
  texts, not their `number_format` rendering.
- The frequency and hour options have fields in the settings view, but
  `salvar_configuracoes` does not write them. The model writes only what
  the code writes.
- Plugin.FirstRun assumes WordPress keeps PHP's clock in UTC. On that
  assumption `strtotime("today H:00")` applied to the offset timestamp falls
  on a whole day boundary plus H hours.
- Concurrency between requests and wp-cron's own retry behaviour are not
  modelled.
- The admin menu, script enqueueing, the list-table cell rendering, the
  dashboard report and `uninstall.php` are not modelled. They do not write
  the flags.
