/** Main (Program.cs:36-78) as a specification: argument checks, then the polling
    loop, its unbounded `while (true)` cut down to a finite sequence of cycles. */
module Monitor {
  import opened Wrappers
  import opened Library
  import opened Config
  import opened Events
  import opened Quote
  import opened Threshold
  import opened Notifier

  /** Thread.Sleep(60000) at the end of each cycle. */
  const PollIntervalMs: nat := 60000

  /** The instrument and the two thresholds given on the command line. */
  datatype Target = Target(ativo: string, sell: real, buy: real)

  /** What the outside world does in one cycle: the provider's reply, and the
      mail transport's behaviour should an alert be sent. */
  datatype Cycle = Cycle(reply: Reply, delivery: Delivery)

  /** One call of EnviarEmail made by the loop. */
  datatype Alert = Alert(ativo: string, price: real, reason: string)

  datatype ArgError = WrongCount | BadSell | BadBuy

  function ArgLine(e: ArgError): Line {
    match e
    case WrongCount => Usage
    case BadSell => InvalidSell
    case BadBuy => InvalidBuy
  }

  /** Program.cs:38-54: three arguments, the sell price parsed before the buy price. */
  function ParseArgs(args: seq<string>, p: Platform): (r: Result<Target, ArgError>)
    ensures r == Err(WrongCount) <==> |args| != 3
    ensures r == Err(BadSell) <==> |args| == 3 && p.parseDecimal(args[1]).None?
    ensures r == Err(BadBuy) <==>
      |args| == 3 && p.parseDecimal(args[1]).Some? && p.parseDecimal(args[2]).None?
    ensures r.Ok? <==> |args| == 3 && p.parseDecimal(args[1]).Some? && p.parseDecimal(args[2]).Some?
    ensures r.Ok? ==>
      r.value == Target(args[0], p.parseDecimal(args[1]).value, p.parseDecimal(args[2]).value)
  {
    if |args| != 3 then Err(WrongCount)
    else
      match p.parseDecimal(args[1])
      case None => Err(BadSell)
      case Some(sell) =>
        match p.parseDecimal(args[2])
        case None => Err(BadBuy)
        case Some(buy) => Ok(Target(args[0], sell, buy))
  }

  /** The price the loop works with in cycle c (the sentinel when the fetch failed). */
  function CyclePrice(c: Cycle, p: Platform): real {
    PriceOf(Fetch(c.reply, p))
  }

  /** The events of one pass through the loop body (Program.cs:63-76). */
  function CycleEvents(t: Target, cfg: AppConfig, c: Cycle, p: Platform): (r: seq<Event>)
    ensures |r| >= 3 && r[0] == Request(t.ativo) && r[|r| - 1] == Sleep(PollIntervalMs)
  {
    var price := CyclePrice(c, p);
    FetchEvents(t.ativo, c.reply, p) + [Log(Observation(t.ativo, price))]
    + NotifyStep(t, cfg, c, p) + [Sleep(PollIntervalMs)]
  }

  /** The call of EnviarEmail a cycle makes, if its price crosses a threshold. */
  function NotifyStep(t: Target, cfg: AppConfig, c: Cycle, p: Platform): seq<Event> {
    var price := CyclePrice(c, p);
    match Reason(Decide(price, t.sell, t.buy))
    case None => []
    case Some(m) => AlertEvents(cfg, t.ativo, price, m, c.delivery, p)
  }

  /** The events of the cycles in order. */
  function LoopEvents(t: Target, cfg: AppConfig, cs: seq<Cycle>, p: Platform): (r: seq<Event>)
    ensures |r| >= 3 * |cs|
  {
    if cs == [] then []
    else LoopEvents(t, cfg, cs[..|cs| - 1], p) + CycleEvents(t, cfg, cs[|cs| - 1], p)
  }

  /** The alert of one cycle, if its price crosses a threshold. */
  function CycleAlert(t: Target, c: Cycle, p: Platform): seq<Alert> {
    var price := CyclePrice(c, p);
    match Reason(Decide(price, t.sell, t.buy))
    case None => []
    case Some(m) => [Alert(t.ativo, price, m)]
  }

  /** The calls of EnviarEmail over the cycles, in order. */
  function Alerts(t: Target, cs: seq<Cycle>, p: Platform): seq<Alert> {
    if cs == [] then []
    else Alerts(t, cs[..|cs| - 1], p) + CycleAlert(t, cs[|cs| - 1], p)
  }

  /** Reference for the mails: one per cycle that alerts and is Ready, no other. */
  function ExpectedMails(t: Target, cfg: AppConfig, cs: seq<Cycle>, p: Platform): seq<Mail> {
    if cs == [] then []
    else
      var c := cs[|cs| - 1];
      var price := CyclePrice(c, p);
      ExpectedMails(t, cfg, cs[..|cs| - 1], p)
      + (match Reason(Decide(price, t.sell, t.buy))
         case Some(m) =>
           if Ready(cfg, t.ativo, c.delivery, p) then [Outgoing(cfg, t.ativo, price, m, p)] else []
         case None => [])
  }

  /** The prices the cycles observe, one per cycle. */
  function Prices(cs: seq<Cycle>, p: Platform): (r: seq<real>)
    ensures |r| == |cs|
    ensures forall i :: 0 <= i < |cs| ==> r[i] == CyclePrice(cs[i], p)
  {
    if cs == [] then [] else Prices(cs[..|cs| - 1], p) + [CyclePrice(cs[|cs| - 1], p)]
  }

  /** The whole run: nothing past the argument error, the configuration only
      after both prices parsed, and the loop only once it is loaded. */
  function RunEvents(args: seq<string>, config: Option<AppConfig>, cs: seq<Cycle>, p: Platform): (r: seq<Event>)
    ensures |r| >= 1
    ensures r[0] == LoadConfig <==> ParseArgs(args, p).Ok?
  {
    match ParseArgs(args, p)
    case Err(e) => [Log(ArgLine(e))]
    case Ok(t) =>
      [LoadConfig] +
      match config
      case None => [ConfigFailed]
      case Some(cfg) => [Log(Monitoring(t.ativo, t.sell, t.buy))] + LoopEvents(t, cfg, cs, p)
  }

  /** Appending a cycle appends its events and its alert: the folds run in cycle order. */
  lemma LoopSnoc(t: Target, cfg: AppConfig, cs: seq<Cycle>, c: Cycle, p: Platform)
    ensures LoopEvents(t, cfg, cs + [c], p) == LoopEvents(t, cfg, cs, p) + CycleEvents(t, cfg, c, p)
    ensures Alerts(t, cs + [c], p) == Alerts(t, cs, p) + CycleAlert(t, c, p)
  {
    assert (cs + [c])[..|cs|] == cs;
  }

  /** One cycle sends at most one mail: the one the reference describes. */
  lemma CycleSends(t: Target, cfg: AppConfig, c: Cycle, p: Platform)
    ensures Sends(CycleEvents(t, cfg, c, p)) ==
      ExpectedMails(t, cfg, [c], p)
  {
    var price := CyclePrice(c, p);
    var fetch := FetchEvents(t.ativo, c.reply, p);
    var obs: seq<Event> := [Log(Observation(t.ativo, price))];
    var notify := NotifyStep(t, cfg, c, p);
    var sleep: seq<Event> := [Sleep(PollIntervalMs)];
    assert CycleEvents(t, cfg, c, p) == fetch + obs + notify + sleep;
    SendsAppend(fetch + obs + notify, sleep);
    SendsAppend(fetch + obs, notify);
    SendsAppend(fetch, obs);
    SendsNone(sleep);
    SendsNone(obs);
    SendsNone(fetch);
    match Reason(Decide(price, t.sell, t.buy))
    case None =>
    case Some(m) => NotifySends(cfg, t.ativo, price, m, c.delivery, p);
    assert [c][..0] == [];
  }

  /** The loop sends exactly the reference mails, in order: every qualifying
      cycle sends again, with no suppression of repeats. */
  lemma {:induction false} LoopSends(t: Target, cfg: AppConfig, cs: seq<Cycle>, p: Platform)
    ensures Sends(LoopEvents(t, cfg, cs, p)) == ExpectedMails(t, cfg, cs, p)
  {
    if cs != [] {
      var init, c := cs[..|cs| - 1], cs[|cs| - 1];
      LoopSends(t, cfg, init, p);
      SendsAppend(LoopEvents(t, cfg, init, p), CycleEvents(t, cfg, c, p));
      CycleSends(t, cfg, c, p);
      assert [c][..0] == [];
    }
  }

  /** Every cycle logs its price, failed fetches included, in order. */
  lemma {:induction false} LoopObservations(t: Target, cfg: AppConfig, cs: seq<Cycle>, p: Platform)
    ensures Observed(LoopEvents(t, cfg, cs, p)) == Prices(cs, p)
  {
    if cs != [] {
      var init, c := cs[..|cs| - 1], cs[|cs| - 1];
      LoopObservations(t, cfg, init, p);
      ObservedAppend(LoopEvents(t, cfg, init, p), CycleEvents(t, cfg, c, p));
      CycleObservation(t, cfg, c, p);
    }
  }

  /** The one observation of a cycle is its price. */
  lemma CycleObservation(t: Target, cfg: AppConfig, c: Cycle, p: Platform)
    ensures Observed(CycleEvents(t, cfg, c, p)) == [CyclePrice(c, p)]
  {
    var price := CyclePrice(c, p);
    var fetch := FetchEvents(t.ativo, c.reply, p);
    var obs: seq<Event> := [Log(Observation(t.ativo, price))];
    var notify := NotifyStep(t, cfg, c, p);
    var sleep: seq<Event> := [Sleep(PollIntervalMs)];
    assert CycleEvents(t, cfg, c, p) == fetch + obs + notify + sleep;
    ObservedAppend(fetch + obs + notify, sleep);
    ObservedAppend(fetch + obs, notify);
    ObservedAppend(fetch, obs);
    assert Observed(sleep) == [] by { assert sleep[..0] == []; }
    assert Observed(obs) == [price] by { assert obs[..0] == []; }
    ObservedNone(notify);
    ObservedNone(fetch);
  }

  /** The same qualifying cycle n times over sends n mails. */
  lemma {:induction false} RepeatedAlerts(t: Target, cfg: AppConfig, c: Cycle, n: nat, p: Platform)
    requires Decide(CyclePrice(c, p), t.sell, t.buy) != NoAlert
    requires Ready(cfg, t.ativo, c.delivery, p)
    ensures |Sends(LoopEvents(t, cfg, seq(n, _ => c), p))| == n
  {
    LoopSends(t, cfg, seq(n, _ => c), p);
    RepeatedMails(t, cfg, c, n, p);
  }

  lemma {:induction false} RepeatedMails(t: Target, cfg: AppConfig, c: Cycle, n: nat, p: Platform)
    requires Decide(CyclePrice(c, p), t.sell, t.buy) != NoAlert
    requires Ready(cfg, t.ativo, c.delivery, p)
    ensures |ExpectedMails(t, cfg, seq(n, _ => c), p)| == n
  {
    if n > 0 {
      var cs := seq(n, _ => c);
      assert cs[..n - 1] == seq(n - 1, _ => c);
      assert cs[n - 1] == c;
      RepeatedMails(t, cfg, c, n - 1, p);
    }
  }

  /** EnviarEmail is called on every qualifying cycle, whatever the settings and
      the transport: n copies of the cycle make n identical calls. */
  lemma {:induction false} RepeatedCalls(t: Target, c: Cycle, n: nat, p: Platform)
    requires Decide(CyclePrice(c, p), t.sell, t.buy) != NoAlert
    ensures |CycleAlert(t, c, p)| == 1
    ensures Alerts(t, seq(n, _ => c), p) == seq(n, _ => CycleAlert(t, c, p)[0])
  {
    if n > 0 {
      var cs := seq(n, _ => c);
      assert cs[..n - 1] == seq(n - 1, _ => c);
      assert cs[n - 1] == c;
      RepeatedCalls(t, c, n - 1, p);
      assert seq(n, _ => CycleAlert(t, c, p)[0])
          == seq(n - 1, _ => CycleAlert(t, c, p)[0]) + CycleAlert(t, c, p);
    }
  }

  /** A failed fetch is compared as the price -1: with a sell price above -1 and
      a buy price at or above it, the cycle raises a buy alert at price -1. */
  lemma FailedFetchRaisesBuyAlert(t: Target, cfg: AppConfig, c: Cycle, p: Platform)
    requires Fetch(c.reply, p).Failed?
    requires Sentinel < t.sell && Sentinel <= t.buy
    ensures CycleAlert(t, c, p) == [Alert(t.ativo, Sentinel, BuyReason)]
    ensures CycleEvents(t, cfg, c, p) ==
      [Request(t.ativo), Log(FetchError(Fetch(c.reply, p).cause)), Log(Observation(t.ativo, Sentinel))]
      + AlertEvents(cfg, t.ativo, Sentinel, BuyReason, c.delivery, p)
      + [Sleep(PollIntervalMs)]
    ensures Ready(cfg, t.ativo, c.delivery, p) ==>
      Sends(CycleEvents(t, cfg, c, p)) == [Outgoing(cfg, t.ativo, Sentinel, BuyReason, p)]
  {
    CycleSends(t, cfg, c, p);
    assert [c][..0] == [];
  }

  /** An argument error is the whole run: one line, no configuration read, no
      request. The configuration is read exactly when both prices parse, and a
      failed read ends the run before any request. */
  lemma StartupOrder(args: seq<string>, config: Option<AppConfig>, cs: seq<Cycle>, p: Platform)
    ensures ParseArgs(args, p).Err? ==>
      RunEvents(args, config, cs, p) == [Log(ArgLine(ParseArgs(args, p).error))]
    ensures LoadConfig in RunEvents(args, config, cs, p) <==> ParseArgs(args, p).Ok?
    ensures ParseArgs(args, p).Ok? && config.None? ==>
      RunEvents(args, config, cs, p) == [LoadConfig, ConfigFailed]
    ensures (exists a :: Request(a) in RunEvents(args, config, cs, p)) ==>
      ParseArgs(args, p).Ok? && config.Some?
  {
  }
}
