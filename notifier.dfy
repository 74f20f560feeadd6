/** EnviarEmail (Program.cs:108-147) as a specification: the events one call makes. */
module Notifier {
  import opened Text
  import opened Library
  import opened Config
  import opened Events

  /** What the mail transport does on this call: whether `new SmtpClient(host, port)`
      returns (it throws, for instance, on a bad port) and whether `client.Send`
      returns (it throws on a connection, TLS or authentication failure). */
  datatype Delivery = Delivery(clientCreated: bool, delivered: bool)

  function Subject(ativo: string): string {
    "Alerta de Cotação - " + ativo
  }

  function Body(ativo: string, mensagem: string, preco: real, p: Platform): string {
    "O ativo " + ativo + " " + mensagem + ". Cotação atual: " + p.formatDecimal(preco)
  }

  /** The events of one call, following the checks in the order the source makes them. */
  function AlertEvents(cfg: AppConfig, ativo: string, preco: real, mensagem: string,
                       delivery: Delivery, p: Platform): (r: seq<Event>)
    ensures 1 <= |r| <= 2 && r[|r| - 1].Log?
    ensures r[0].Send? <==> |r| == 2
  {
    if IsNullOrWhiteSpace(cfg.smtpPass) then [Log(MissingPass)]
    else if !delivery.clientCreated then [Log(SendError)]
    else if IsNullOrWhiteSpace(cfg.smtpUser) then [Log(MissingUser)]
    else if p.mailAddress(cfg.smtpUser.value).None? then [Log(SendError)]
    else if IsNullOrWhiteSpace(cfg.emailDestino) then [Log(MissingDestination)]
    else if p.addressList(cfg.emailDestino.value).None? then [Log(SendError)]
    else if HasCrOrLf(Subject(ativo)) then [Log(SendError)]
    else if !delivery.delivered then [Log(SendError)]
    else
      [Send(Mail(p.mailAddress(cfg.smtpUser.value).value, p.addressList(cfg.emailDestino.value).value,
                 p.normalizeC(Subject(ativo)), Body(ativo, mensagem, preco, p))),
       Log(AlertSent(ativo, mensagem, preco))]
  }

  /** The three settings the source insists on are all filled in. */
  predicate Configured(cfg: AppConfig) {
    !IsNullOrWhiteSpace(cfg.smtpPass) && !IsNullOrWhiteSpace(cfg.smtpUser)
    && !IsNullOrWhiteSpace(cfg.emailDestino)
  }

  /** Everything a send needs, as one condition rather than a sequence of checks:
      the settings, both addresses accepted, a subject without CR or LF (the
      instrument name is never checked, so it may hold one), and a transport
      that works. */
  predicate Ready(cfg: AppConfig, ativo: string, delivery: Delivery, p: Platform) {
    && Configured(cfg)
    && p.mailAddress(cfg.smtpUser.value).Some?
    && p.addressList(cfg.emailDestino.value).Some?
    && !HasCrOrLf(Subject(ativo))
    && delivery.clientCreated && delivery.delivered
  }

  /** The mail that goes out when Ready holds; its subject is stored in NFC form. */
  function Outgoing(cfg: AppConfig, ativo: string, preco: real, mensagem: string, p: Platform): Mail
    requires Configured(cfg)
    requires p.mailAddress(cfg.smtpUser.value).Some? && p.addressList(cfg.emailDestino.value).Some?
  {
    Mail(p.mailAddress(cfg.smtpUser.value).value, p.addressList(cfg.emailDestino.value).value,
         p.normalizeC(Subject(ativo)), Body(ativo, mensagem, preco, p))
  }

  /** One call sends exactly the mail Outgoing describes when Ready holds, and
      nothing otherwise. */
  lemma NotifySends(cfg: AppConfig, ativo: string, preco: real, mensagem: string,
                    delivery: Delivery, p: Platform)
    ensures Sends(AlertEvents(cfg, ativo, preco, mensagem, delivery, p)) ==
      if Ready(cfg, ativo, delivery, p) then [Outgoing(cfg, ativo, preco, mensagem, p)] else []
  {
    var es := AlertEvents(cfg, ativo, preco, mensagem, delivery, p);
    if Ready(cfg, ativo, delivery, p) {
      var m := Outgoing(cfg, ativo, preco, mensagem, p);
      assert es == [Send(m), Log(AlertSent(ativo, mensagem, preco))];
      assert es[..|es| - 1] == [Send(m)];
      assert [Send(m)][..0] == [];
      assert Sends([Send(m)]) == [m];
    } else {
      assert |es| == 1 && !es[0].Send?;
      assert es[..0] == [];
    }
  }

  /** A blank password, user or destination means no mail and no confirmation. */
  lemma BlankSettingBlocksSend(cfg: AppConfig, ativo: string, preco: real, mensagem: string,
                               delivery: Delivery, p: Platform)
    requires !Configured(cfg)
    ensures Sends(AlertEvents(cfg, ativo, preco, mensagem, delivery, p)) == []
    ensures forall e <- AlertEvents(cfg, ativo, preco, mensagem, delivery, p) ::
      !e.Send? && e != Log(AlertSent(ativo, mensagem, preco))
  {
    NotifySends(cfg, ativo, preco, mensagem, delivery, p);
  }

  /** The password is checked before anything else; once the client exists, the
      user and then the destination are checked, and the first blank one alone
      is reported. */
  lemma FirstBlankSettingReported(cfg: AppConfig, ativo: string, preco: real, mensagem: string,
                                  delivery: Delivery, p: Platform)
    ensures IsNullOrWhiteSpace(cfg.smtpPass) ==>
      AlertEvents(cfg, ativo, preco, mensagem, delivery, p) == [Log(MissingPass)]
    ensures !IsNullOrWhiteSpace(cfg.smtpPass) && delivery.clientCreated && IsNullOrWhiteSpace(cfg.smtpUser) ==>
      AlertEvents(cfg, ativo, preco, mensagem, delivery, p) == [Log(MissingUser)]
    ensures (!IsNullOrWhiteSpace(cfg.smtpPass) && delivery.clientCreated && !IsNullOrWhiteSpace(cfg.smtpUser)
             && p.mailAddress(cfg.smtpUser.value).Some? && IsNullOrWhiteSpace(cfg.emailDestino)) ==>
      AlertEvents(cfg, ativo, preco, mensagem, delivery, p) == [Log(MissingDestination)]
  {
  }

  /** The confirmation line is logged exactly when every check passed and the
      transport delivered: a failure anywhere, a blank setting, a throwing
      client, address parser, Subject setter or Send, skips it. When it is
      logged, the send comes right before it. */
  lemma ConfirmationOnlyAfterSend(cfg: AppConfig, ativo: string, preco: real, mensagem: string,
                                  delivery: Delivery, p: Platform)
    ensures var es := AlertEvents(cfg, ativo, preco, mensagem, delivery, p);
      && ((exists i :: 0 <= i < |es| && es[i].Log? && es[i].line.AlertSent?) <==> Ready(cfg, ativo, delivery, p))
      && (forall i :: 0 <= i < |es| && es[i].Log? && es[i].line.AlertSent? ==> 0 < i && es[i - 1].Send?)
  {
    var es := AlertEvents(cfg, ativo, preco, mensagem, delivery, p);
    if Ready(cfg, ativo, delivery, p) {
      assert es[1] == Log(AlertSent(ativo, mensagem, preco));
    } else {
      assert |es| == 1 && !es[0].line.AlertSent?;
    }
  }

  /** An instrument name with a CR or LF makes the Subject setter throw: the
      call logs the send error and sends nothing, however ready the rest is. */
  lemma LineBreakInNameBlocksSend(cfg: AppConfig, ativo: string, preco: real, mensagem: string,
                                  delivery: Delivery, p: Platform)
    requires HasCrOrLf(ativo)
    ensures Sends(AlertEvents(cfg, ativo, preco, mensagem, delivery, p)) == []
    ensures Configured(cfg) && delivery.clientCreated && p.mailAddress(cfg.smtpUser.value).Some?
            && p.addressList(cfg.emailDestino.value).Some? ==>
      AlertEvents(cfg, ativo, preco, mensagem, delivery, p) == [Log(SendError)]
  {
    var i :| 0 <= i < |ativo| && (ativo[i] == '\r' || ativo[i] == '\n');
    var prefix := "Alerta de Cotação - ";
    assert Subject(ativo)[|prefix| + i] == ativo[i];
    NotifySends(cfg, ativo, preco, mensagem, delivery, p);
  }

  /** When a mail goes out it carries the fixed subject and body templates, and
      the confirmation line comes right after it: the call's only two events. */
  lemma SentMailFormat(cfg: AppConfig, ativo: string, preco: real, mensagem: string,
                       delivery: Delivery, p: Platform, m: Mail)
    requires Send(m) in AlertEvents(cfg, ativo, preco, mensagem, delivery, p)
    ensures !HasCrOrLf("Alerta de Cotação - " + ativo)
    ensures m.subject == p.normalizeC("Alerta de Cotação - " + ativo)
    ensures m.body == "O ativo " + ativo + " " + mensagem + ". Cotação atual: " + p.formatDecimal(preco)
    ensures m.from == p.mailAddress(cfg.smtpUser.value).value
    ensures m.to == p.addressList(cfg.emailDestino.value).value
    ensures AlertEvents(cfg, ativo, preco, mensagem, delivery, p) == [Send(m), Log(AlertSent(ativo, mensagem, preco))]
  {
  }
}
