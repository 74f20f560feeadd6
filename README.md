# Stock quote alert, modelled in Dafny

The program watches one instrument listed on B3 (Brazil's stock exchange). It
is started with `ATIVO PRECO_VENDA PRECO_COMPRA`, and it polls the Alpha
Vantage "global quote" endpoint, waiting a minute between polls. When the current price is at
or above the sell price (`PRECO_VENDA`), or at or below the buy price
(`PRECO_COMPRA`), it sends an e-mail through an authenticated SMTP relay. It
logs everything to the console, and it never stops on a per-cycle failure.

The model has two layers.

- **Specification functions.** These say which observable events a call
  produces. `Quote.Fetch` and `Quote.FetchEvents` cover `ObterCotacao`.
  `Threshold.Decide` covers the alert branch. `Notifier.AlertEvents` covers
  `EnviarEmail`. `Monitor.CycleEvents`, `Monitor.LoopEvents` and
  `Monitor.RunEvents` cover `Main`.
- **An imperative class, `Program.World`.** Its field `trace` is the sequence
  of observable events: console lines, the configuration read, quote
  requests, mails handed to the relay, and sleeps. Its methods follow the C#
  code statement by statement, with the same checks in the same order and
  the same early returns. `SendAlert` fills in a `MailMessage` object field
  by field. Each method ensures that it appended exactly what its
  specification function describes.

The properties are lemmas about the specification functions:

- a fetch succeeds exactly along the path `"Global Quote" → "05. price"`;
- every failure gives the sentinel `-1`;
- the sell test wins over the buy test;
- a blank setting blocks the send, and the first blank setting is the one
  reported;
- the subject and body follow fixed templates;
- at most one mail is sent per cycle;
- the loop sends again on every qualifying cycle, with no de-duplication;
- a failed fetch is compared as the price `-1`, so it can raise a buy alert;
- an argument error ends the run before the configuration is read.

Inputs from outside the program are parameters:

- `Quote.Reply`: the provider's answer, after the library turned it into a
  JSON tree, or the fact that the request or the parse threw.
- `Notifier.Delivery`: whether `new SmtpClient(...)` and `client.Send`
  returned normally.
- `Config.AppConfig`: what `AppConfig.Load` returned, or `None` when it threw.
- `Monitor.Cycle`: one loop iteration's reply and delivery. The endless
  loop becomes a finite sequence of cycles.
- `Library.Platform`: .NET library behaviour that depends on the culture or
  on parsers outside the program. It holds `decimal.TryParse`,
  `decimal.ToString`, `JsonNode.ToString` of an array or object, the NFC
  normalisation the `MailMessage.Subject` setter applies, and the address
  parsing of `MailAddress` and `MailAddressCollection.Add`. These are
  all uninterpreted total functions.

`decimal` is modelled as `real`, which makes the comparisons exact.

## Model

| member | source | states |
|---|---|---|
| `Quote.Fetch` | Program.cs:87-99 | Definition: the checks of ObterCotacao in their order (null document, the two indexers, blank text, parse). A request failure is `RequestError`; a price needs an object root holding "Global Quote". |
| `Quote.FetchEvents` | Program.cs:84-104 | Definition: one request event, followed by the error line exactly when the fetch failed. |
| `Quote.FetchPriced` | Program.cs:87-97 | The fetch returns price v exactly when the reply is a document, the root is an object with member "Global Quote", that member is an object with a non-null "05. price", and the text of that node is not blank and parses to v (both directions). |
| `Quote.FetchFailures` | Program.cs:85-105 | Every failure returns exactly -1. Each cause holds exactly when its condition does (both directions): the request or parse threw; the document is null; the root, or the member "Global Quote", is neither null nor an object, so an indexer throws; the root is an object and "Global Quote" is missing or JSON null, or is an object whose "05. price" is missing, JSON null or white-space text (a blank price); that text is not blank and does not parse. |
| `Quote.SentinelIsAmbiguous` | Program.cs:96-104 | A provider price of "-1" gives the same result as a failed fetch, so the caller cannot tell the two apart. |
| `Threshold.Decide` | Program.cs:67-74 | A sell alert exactly when price >= sell. A buy alert exactly when price < sell and price <= buy. No alert exactly when buy < price < sell. The sell test therefore wins when both hold. |
| `Notifier.AlertEvents` | Program.cs:108-147 | Definition: the events of one EnviarEmail call, with the checks and exception points in the source's order (password, client, user, sender address, destination, recipients, subject setter, Send). Every call has one or two events and ends with a console line. It has two exactly when the first is the send, so it logs exactly one line. |
| `Notifier.NotifySends` | Program.cs:110-141 | One call of EnviarEmail sends exactly one mail when all of these hold: the three settings are filled in, both addresses are accepted, the subject has no CR or LF, the client is created and Send returns. Otherwise it sends nothing. The mail sent is the one built from the templates. |
| `Notifier.ConfirmationOnlyAfterSend` | Program.cs:116-146 | The confirmation line is logged exactly when the settings are filled in, both addresses are accepted, the subject has no CR or LF, the client is created and Send returns. Any throw skips it into the catch. When logged, it comes right after the send. |
| `Notifier.LineBreakInNameBlocksSend` | Program.cs:136-146 | An instrument name containing CR or LF makes the Subject setter throw. The call sends nothing, and once the earlier checks pass, its only event is the send-error line. |
| `Notifier.BlankSettingBlocksSend` | Program.cs:110-134 | If the password, the user or the destination is null or white space, the call sends no mail and logs no confirmation line. |
| `Notifier.FirstBlankSettingReported` | Program.cs:110-134 | The password is checked first, whatever the transport does. Once the client exists, the user is checked, then the destination after the sender address is accepted. The first blank setting is the call's only event. |
| `Notifier.SentMailFormat` | Program.cs:129-141 | A mail that is sent has as subject the NFC form of "Alerta de Cotação - " + ativo, which contains no CR or LF, and body "O ativo " + ativo + " " + mensagem + ". Cotação atual: " + price. Its sender is the user's address and its recipients are the destination list. The call's events are exactly that send followed by the confirmation line. |
| `Monitor.ParseArgs` | Program.cs:38-54 | A usage error exactly when the argument count is not 3. A sell-price error exactly when the second argument does not parse, whatever the third is. A buy-price error exactly when the second parses and the third does not. Otherwise the result is the target built from the arguments. |
| `Monitor.StartupOrder` | Program.cs:38-57 | An argument error is the whole run: one line, no configuration read, no request. The configuration is read exactly when both prices parse. A failed read ends the run before any request. |
| `Monitor.CycleEvents` | Program.cs:63-76 | Definition: one loop body (fetch, observation line, the EnviarEmail call if the price crosses a threshold, sleep). It starts with the request and ends with the 60000 ms sleep. |
| `Monitor.LoopEvents` | Program.cs:61-77 | Definition: the cycles' events concatenated in order, at least three events per cycle. |
| `Monitor.RunEvents` | Program.cs:36-78 | Definition: the argument line on an argument error. Otherwise the config load, then the fatal stop or the start line and the loop. The first event is the config load exactly when both prices parse. |
| `Monitor.Prices` | Program.cs:61-65 | The reference list of observed prices has one entry per cycle: that cycle's fetched price, or -1. |
| `Monitor.CycleObservation` | Program.cs:63-65 | Each cycle logs exactly one observation line, carrying the price the fetch returned. |
| `Monitor.LoopObservations` | Program.cs:61-77 | Over any sequence of cycles, the observation lines are the cycles' prices in order, failed fetches (as -1) included. |
| `Monitor.CycleSends` | Program.cs:63-76 | A cycle sends at most one mail. Exactly one when its price crosses a threshold and the notifier is ready. |
| `Monitor.LoopSends` | Program.cs:61-77 | The mails sent over a sequence of cycles equal the reference list: one per cycle that crosses a threshold with the notifier ready, in order. Nothing suppresses a repeat. |
| `Monitor.RepeatedAlerts` | Program.cs:61-77 | The same qualifying cycle repeated n times sends n mails. There is no de-duplication. |
| `Monitor.RepeatedMails` | Program.cs:61-77 | The reference mail list has length n for a qualifying cycle with the notifier ready, repeated n times. |
| `Monitor.RepeatedCalls` | Program.cs:61-77 | A qualifying cycle repeated n times calls EnviarEmail n times with the same alert, whatever the settings and the transport. |
| `Monitor.FailedFetchRaisesBuyAlert` | Program.cs:63-73 | When the fetch fails, sell > -1 and buy >= -1, the cycle logs the error and the observation -1, then calls EnviarEmail with the buy reason at price -1. If the notifier is ready, it sends that mail. |
| `Monitor.LoopSnoc` | Program.cs:61-77 | Appending a cycle appends its events and its alert: the loop runs its cycles in order. |
| `Program.World.FetchQuote` | Program.cs:80-106 | Appends the request and, on failure, the error line. Returns the fetched price, or -1. |
| `Program.World.SendAlert` | Program.cs:108-147 | Appends exactly the events of `Notifier.AlertEvents`. The `MailMessage` is built step by step with the source's early returns, including the Subject setter's throw on CR or LF. |
| `Program.World.PollOnce` | Program.cs:63-76 | One loop body: fetch, log the observation, branch on sell then buy, sleep 60000 ms. Appends `Monitor.CycleEvents` and returns the cycle's alert. |
| `Program.World.Poll` | Program.cs:61-77 | The loop over a finite sequence of cycles. Appends `Monitor.LoopEvents` and returns `Monitor.Alerts`. |
| `Program.World.Run` | Program.cs:36-78 | Main: argument checks, configuration load, start line, then the loop. Appends `Monitor.RunEvents`. |

## Left out

- The HTTP request is left out: the URL, the API key constant, `HttpClient` and async/await. The reply is an input (`Quote.Reply`), and the request is one `Request` event.
- How `JsonNode.Parse` works is left out, including its duplicate-key rules. The model starts from the tree the library returns, or from its failure.
- The number formats of `decimal.TryParse` and `decimal.ToString` are left out, because they depend on the culture. Both are uninterpreted fields of `Library.Platform`. So is `JsonNode.ToString` for arrays and objects.
- The range and precision of `decimal` are not modelled. Prices are unbounded reals, and the abstract parser is not restricted to values a `decimal` can hold.
- The address syntax of `MailAddress` and `MailAddressCollection.Add` is left out. Address parsing is an uninterpreted field of `Library.Platform`.
- The mail transport is left out: SMTP, TLS, credentials, host and port. `Notifier.Delivery` gives per cycle whether `new SmtpClient(host, port)` and `client.Send` returned normally. The model does not relate them to `SmtpHost` or `SmtpPort`. A failed `Send` is modelled as no mail sent.
- `AppConfig.Load` is left out: the file read and the JSON deserializer. Its result is an input. When it throws, the event `ConfigFailed` ends the run, standing for the unhandled exception.
- The timestamp in observation lines (`DateTime.Now`) is left out. A sleep is a `Sleep(60000)` event.
- The endless loop is not modelled. A run covers finitely many cycles.
- The exact text of lines with formatted content, and of the messages of exceptions thrown by the library, is not modelled. `Events.Wording` gives the fixed texts of the validation and error lines.
- Notifier.SentMailFormat: the price in the mail body, the observation line and the confirmation line depends only on its value. C#'s `decimal` also keeps the scale of the text it was parsed from, so "31.50" and "31.5000" print differently. The model's `real` has no scale, so this is not modelled.
- The NFC normalisation of the subject is an uninterpreted field of `Library.Platform`.
