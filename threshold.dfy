/** The branch of Main that turns a price into an alert (Program.cs:67-74). */
module Threshold {
  import opened Wrappers

  datatype Decision = SellAlert | BuyAlert | NoAlert

  const SellReason: string := "subiu acima do preço de VENDA"
  const BuyReason: string := "caiu abaixo do preço de COMPRA"

  /** The sell test comes first, so it wins when both thresholds are crossed. */
  function Decide(price: real, sell: real, buy: real): (d: Decision)
    ensures d == SellAlert <==> price >= sell
    ensures d == BuyAlert <==> price < sell && price <= buy
    ensures d == NoAlert <==> buy < price < sell
  {
    if price >= sell then SellAlert
    else if price <= buy then BuyAlert
    else NoAlert
  }

  /** The text handed to EnviarEmail, if any. */
  function Reason(d: Decision): Option<string> {
    match d
    case SellAlert => Some(SellReason)
    case BuyAlert => Some(BuyReason)
    case NoAlert => None
  }
}
