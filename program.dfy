/**
 * The program's entry point: the payment menu, one payment, and the fixed
 * observer demonstration. The console reads become the parameters of `Run`;
 * every printed line that is not a prompt or the menu itself becomes a
 * `ProgramEvent`.
 */
module Program {
  import opened Wrappers
  import opened Payment
  import opened Exchange

  datatype ProgramEvent =
    | InvalidChoice
    | PaymentReported(outcome: PaymentOutcome)
    | ObserverDemoHeader
    | ExchangeOutput(event: Event)
    | BankRemovedNotice

  /** The menu: 1 is the card, 2 PayPal, 3 crypto; any other number is an invalid choice. */
  function MenuChoice(choice: int): (k: Option<StrategyKind>)
    ensures k.Some? <==> 1 <= choice <= 3
  {
    match choice
    case 1 => Some(CreditCardKind)
    case 2 => Some(PayPalKind)
    case 3 => Some(CryptoKind)
    case _ => None
  }

  /** The menu number of each strategy kind. */
  function MenuNumber(k: StrategyKind): int
  {
    match k
    case CreditCardKind => 1
    case PayPalKind => 2
    case CryptoKind => 3
  }

  /** Every strategy has exactly one menu number, and each valid number names exactly one strategy. */
  lemma MenuChoiceIsInverseOfNumber(choice: int, k: StrategyKind)
    ensures MenuChoice(MenuNumber(k)) == Some(k)
    ensures MenuChoice(choice) == Some(k) <==> choice == MenuNumber(k)
  {
  }

  /** The printed lines of an exchange, as program output. */
  function Wrap(events: seq<Event>): (w: seq<ProgramEvent>)
    ensures |w| == |events|
    ensures forall i :: 0 <= i < |events| ==> w[i] == ExchangeOutput(events[i])
  {
    if events == [] then [] else [ExchangeOutput(events[0])] + Wrap(events[1..])
  }

  // The three observers of the demonstration, each its own object.
  const bank := Observer(0, Bank)
  const investor := Observer(1, Investor)
  const office := Observer(2, ExchangeOffice)

  /**
   * What the observer demonstration prints, line by line: at 495 all three
   * observers are told and the investor buys; at 510 all three are told and
   * the investor sells; after the bank is removed, 530 reaches only the
   * investor (who sells) and then the office.
   */
  function DemoOutput(): seq<ProgramEvent>
  {
    [ ExchangeOutput(RateAnnounced(495.0)),
      ExchangeOutput(Delivered(bank, 495.0, BankReceived(495.0))),
      ExchangeOutput(Delivered(investor, 495.0, InvestorBuy)),
      ExchangeOutput(Delivered(office, 495.0, OfficeDisplayed(495.0))),
      ExchangeOutput(RateAnnounced(510.0)),
      ExchangeOutput(Delivered(bank, 510.0, BankReceived(510.0))),
      ExchangeOutput(Delivered(investor, 510.0, InvestorSell)),
      ExchangeOutput(Delivered(office, 510.0, OfficeDisplayed(510.0))),
      BankRemovedNotice,
      ExchangeOutput(RateAnnounced(530.0)),
      ExchangeOutput(Delivered(investor, 530.0, InvestorSell)),
      ExchangeOutput(Delivered(office, 530.0, OfficeDisplayed(530.0))) ]
  }

  /**
   * The fixed observer demonstration: subscribe bank, investor and office,
   * set the rate to 495 and to 510, unsubscribe the bank, set it to 530.
   */
  method ObserverDemo() returns (output: seq<ProgramEvent>)
    ensures output == DemoOutput()
  {
    var exchange := new CurrencyExchange();
    exchange.AddObserver(bank);
    exchange.AddObserver(investor);
    exchange.AddObserver(office);
    assert exchange.observers == [bank, investor, office];

    var first := exchange.SetUsdRate(495.0);
    var second := exchange.SetUsdRate(510.0);
    exchange.RemoveObserver(bank);
    assert exchange.observers == [investor, office];
    var third := exchange.SetUsdRate(530.0);

    DemoDeliveries3([bank, investor, office], 495.0);
    DemoDeliveries3([bank, investor, office], 510.0);
    DemoDeliveries2([investor, office], 530.0);
    output := Wrap(first) + Wrap(second) + [BankRemovedNotice] + Wrap(third);
  }

  lemma DemoDeliveries3(obs: seq<Observer>, rate: real)
    requires |obs| == 3
    ensures Deliveries(obs, rate) == [Deliver(obs[0], rate), Deliver(obs[1], rate), Deliver(obs[2], rate)]
  {
    DeliveriesAt(obs, rate, 0);
    DeliveriesAt(obs, rate, 1);
    DeliveriesAt(obs, rate, 2);
  }

  lemma DemoDeliveries2(obs: seq<Observer>, rate: real)
    requires |obs| == 2
    ensures Deliveries(obs, rate) == [Deliver(obs[0], rate), Deliver(obs[1], rate)]
  {
    DeliveriesAt(obs, rate, 0);
    DeliveriesAt(obs, rate, 1);
  }

  /**
   * The whole program with `choice`, `line` and `amount` as the console
   * input: an invalid menu number prints its notice and ends the run;
   * otherwise the chosen strategy is built around `line`, charged `amount`,
   * and the observer demonstration follows.
   */
  method Run(choice: int, line: string, amount: real) returns (output: seq<ProgramEvent>)
    ensures MenuChoice(choice) == None ==> output == [InvalidChoice]
    ensures MenuChoice(choice).Some? ==>
      output == [PaymentReported(Paid(Receipt(amount, MenuChoice(choice).value, line))), ObserverDemoHeader]
                + DemoOutput()
  {
    var context := new PaymentContext();
    var kind := MenuChoice(choice);
    if kind == None {
      output := [InvalidChoice];
      return;
    }
    context.SetStrategy(Some(Make(kind.value, line)));
    var outcome := context.ExecutePayment(amount);
    var demo := ObserverDemo();
    output := [PaymentReported(outcome), ObserverDemoHeader] + demo;
  }
}
