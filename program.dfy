/** The program itself (class Program in Program.cs): Main, ObterCotacao and
    EnviarEmail as methods that write, step by step, to the outside world. */
module Program {
  import opened Wrappers
  import opened Text
  import opened Library
  import opened Config
  import opened Events
  import opened Quote
  import opened Threshold
  import opened Notifier
  import opened Monitor

  /** System.Net.Mail.MailMessage, filled in field by field. */
  class MailMessage {
    var from: Option<string>
    var to: seq<string>
    var subject: string
    var body: string

    constructor ()
      ensures from == None && to == [] && subject == "" && body == ""
    {
      from, to, subject, body := None, [], "", "";
    }

    /** The message as SmtpClient.Send hands it to the relay. */
    function Contents(): Mail
      reads this
      requires from.Some?
    {
      Mail(from.value, to, subject, body)
    }
  }

  /** Everything the process makes observable, in the order it happens: the
      console, the configuration file, the quote provider, the mail relay, the clock. */
  class World {
    var trace: seq<Event>

    constructor ()
      ensures trace == []
    {
      trace := [];
    }

    method Emit(e: Event)
      modifies this
      ensures trace == old(trace) + [e]
    {
      trace := trace + [e];
    }

    /** EnviarEmail (Program.cs:108-147). */
    method SendAlert(cfg: AppConfig, ativo: string, preco: real, mensagem: string,
                     delivery: Delivery, p: Platform)
      modifies this
      ensures trace == old(trace) + AlertEvents(cfg, ativo, preco, mensagem, delivery, p)
    {
      if IsNullOrWhiteSpace(cfg.smtpPass) {
        Emit(Log(MissingPass));
        return;
      }
      // try { using (var client = new SmtpClient(...)) { ... } } catch: log and return
      if !delivery.clientCreated {
        Emit(Log(SendError));
        return;
      }
      var mail := new MailMessage();
      if IsNullOrWhiteSpace(cfg.smtpUser) {
        Emit(Log(MissingUser));
        return;
      }
      var from := p.mailAddress(cfg.smtpUser.value);
      if from.None? {
        Emit(Log(SendError));
        return;
      }
      mail.from := from;
      if IsNullOrWhiteSpace(cfg.emailDestino) {
        Emit(Log(MissingDestination));
        return;
      }
      var recipients := p.addressList(cfg.emailDestino.value);
      if recipients.None? {
        Emit(Log(SendError));
        return;
      }
      mail.to := mail.to + recipients.value;
      var subject := "Alerta de Cotação - " + ativo;
      // the Subject setter throws on CR or LF and stores the text in NFC form
      if HasCrOrLf(subject) {
        Emit(Log(SendError));
        return;
      }
      mail.subject := p.normalizeC(subject);
      mail.body := "O ativo " + ativo + " " + mensagem + ". Cotação atual: " + p.formatDecimal(preco);
      if !delivery.delivered {
        Emit(Log(SendError));
        return;
      }
      assert mail.Contents() == Outgoing(cfg, ativo, preco, mensagem, p);
      Emit(Send(mail.Contents()));
      Emit(Log(AlertSent(ativo, mensagem, preco)));
    }

    /** ObterCotacao (Program.cs:80-106): one request, the checks of the reply in
        order, and the sentinel with an error line on the first that fails. */
    method FetchQuote(ativo: string, reply: Reply, p: Platform) returns (price: real)
      modifies this
      ensures price == PriceOf(Fetch(reply, p))
      ensures trace == old(trace) + FetchEvents(ativo, reply, p)
    {
      Emit(Request(ativo));
      var failure: FetchFailure;
      if reply.RequestFailed? {
        failure := RequestError;
      } else if reply.root.Null? {
        failure := NullDocument;
      } else {
        var text := PriceText(reply.root, p);
        if text.Err? {
          failure := text.error;
        } else if IsNullOrWhiteSpace(text.value) {
          failure := BlankPrice;
        } else {
          var parsed := p.parseDecimal(text.value.value);
          if parsed.Some? {
            return parsed.value;
          }
          failure := Unparsable;
        }
      }
      Emit(Log(FetchError(failure)));
      return Sentinel;
    }

    /** One pass through the body of Main's loop (Program.cs:63-76). */
    method PollOnce(t: Target, cfg: AppConfig, c: Cycle, p: Platform) returns (alert: seq<Alert>)
      modifies this
      ensures trace == old(trace) + CycleEvents(t, cfg, c, p)
      ensures alert == CycleAlert(t, c, p)
    {
      var precoAtual := FetchQuote(t.ativo, c.reply, p);
      Emit(Log(Observation(t.ativo, precoAtual)));
      ghost var observed := trace;
      if precoAtual >= t.sell {
        SendAlert(cfg, t.ativo, precoAtual, SellReason, c.delivery, p);
        alert := [Alert(t.ativo, precoAtual, SellReason)];
      } else if precoAtual <= t.buy {
        SendAlert(cfg, t.ativo, precoAtual, BuyReason, c.delivery, p);
        alert := [Alert(t.ativo, precoAtual, BuyReason)];
      } else {
        alert := [];
      }
      assert trace == observed + NotifyStep(t, cfg, c, p);
      Emit(Sleep(PollIntervalMs));
    }

    /** The `while (true)` loop of Main (Program.cs:61-77), over finitely many cycles. */
    method Poll(t: Target, cfg: AppConfig, cycles: seq<Cycle>, p: Platform) returns (alerts: seq<Alert>)
      modifies this
      ensures trace == old(trace) + LoopEvents(t, cfg, cycles, p)
      ensures alerts == Alerts(t, cycles, p)
    {
      alerts := [];
      var i := 0;
      ghost var done: seq<Cycle> := [];
      while i < |cycles|
        invariant 0 <= i <= |cycles| && done == cycles[..i]
        invariant trace == old(trace) + LoopEvents(t, cfg, done, p)
        invariant alerts == Alerts(t, done, p)
      {
        var alert := PollOnce(t, cfg, cycles[i], p);
        alerts := alerts + alert;
        LoopSnoc(t, cfg, done, cycles[i], p);
        AppendAssoc(old(trace), LoopEvents(t, cfg, done, p), CycleEvents(t, cfg, cycles[i], p));
        done := done + [cycles[i]];
        i := i + 1;
      }
      assert done == cycles;
    }

    /** Main (Program.cs:36-78). `config` is what AppConfig.Load returns; None
        when it throws, which ends the process. */
    method Run(args: seq<string>, config: Option<AppConfig>, cycles: seq<Cycle>, p: Platform)
      modifies this
      ensures trace == old(trace) + RunEvents(args, config, cycles, p)
    {
      if |args| != 3 {
        Emit(Log(Usage));
        return;
      }
      var ativo := args[0];
      var precoVenda := p.parseDecimal(args[1]);
      if precoVenda.None? {
        Emit(Log(InvalidSell));
        return;
      }
      var precoCompra := p.parseDecimal(args[2]);
      if precoCompra.None? {
        Emit(Log(InvalidBuy));
        return;
      }
      Emit(LoadConfig);
      if config.None? {
        Emit(ConfigFailed);
        return;
      }
      Emit(Log(Monitoring(ativo, precoVenda.value, precoCompra.value)));
      var t := Target(ativo, precoVenda.value, precoCompra.value);
      ghost var started: seq<Event> := [LoadConfig, Log(Monitoring(ativo, precoVenda.value, precoCompra.value))];
      assert trace == old(trace) + started;
      assert ParseArgs(args, p) == Ok(t);
      assert RunEvents(args, config, cycles, p) == started + LoopEvents(t, config.value, cycles, p);
      var _ := Poll(t, config.value, cycles, p);
      AppendAssoc(old(trace), started, LoopEvents(t, config.value, cycles, p));
    }
  }
}
