/**
 * The Strategy half of the program: three interchangeable payment
 * strategies and a context that holds at most one of them.
 *
 * A strategy's `pay` prints one confirmation line naming the amount and
 * the strategy's stored identifier; that line is modelled as a `Receipt`
 * value. The amount is a Java `double`, abstracted here as `real`.
 */
module Payment {
  import opened Wrappers

  /** The three concrete strategies, each holding the identifier it was built with. */
  datatype Strategy =
    | CreditCard(cardNumber: string)
    | PayPal(email: string)
    | Crypto(walletAddress: string)

  /** Which concrete strategy a receipt was produced by. */
  datatype StrategyKind = CreditCardKind | PayPalKind | CryptoKind

  /** The confirmation line printed by a strategy's `pay`. */
  datatype Receipt = Receipt(amount: real, kind: StrategyKind, identifier: string)

  /** What `executePayment` prints: a "not selected" notice, or the strategy's receipt. */
  datatype PaymentOutcome = NotSelected | Paid(receipt: Receipt)

  function KindOf(s: Strategy): StrategyKind
  {
    match s
    case CreditCard(_) => CreditCardKind
    case PayPal(_) => PayPalKind
    case Crypto(_) => CryptoKind
  }

  /** The card number, e-mail address or wallet address the strategy was built with. */
  function IdentifierOf(s: Strategy): string
  {
    match s
    case CreditCard(n) => n
    case PayPal(e) => e
    case Crypto(w) => w
  }

  /** Builds the strategy of the given kind around an identifier (the constructors of the three classes). */
  function Make(kind: StrategyKind, identifier: string): (s: Strategy)
    ensures KindOf(s) == kind && IdentifierOf(s) == identifier
  {
    match kind
    case CreditCardKind => CreditCard(identifier)
    case PayPalKind => PayPal(identifier)
    case CryptoKind => Crypto(identifier)
  }

  /** The `pay` method of each concrete strategy: one line with the amount and the stored identifier. */
  function Pay(s: Strategy, amount: real): (r: Receipt)
    ensures r.amount == amount
    ensures r.kind == KindOf(s) && r.identifier == IdentifierOf(s)
  {
    match s
    case CreditCard(cardNumber) => Receipt(amount, CreditCardKind, cardNumber)
    case PayPal(email) => Receipt(amount, PayPalKind, email)
    case Crypto(walletAddress) => Receipt(amount, CryptoKind, walletAddress)
  }

  /** A receipt names its strategy exactly: rebuilding from the receipt gives the strategy back. */
  lemma ReceiptIdentifiesStrategy(s: Strategy, amount: real)
    ensures Make(Pay(s, amount).kind, Pay(s, amount).identifier) == s
  {
    match s
    case CreditCard(_) =>
    case PayPal(_) =>
    case Crypto(_) =>
  }

  /** Two payments print the same line only when both the strategy and the amount agree. */
  lemma PayInjective(s1: Strategy, a1: real, s2: Strategy, a2: real)
    requires Pay(s1, a1) == Pay(s2, a2)
    ensures s1 == s2 && a1 == a2
  {
    ReceiptIdentifiesStrategy(s1, a1);
    ReceiptIdentifiesStrategy(s2, a2);
  }

  /** The strategy context: a possibly-null reference to the selected strategy. */
  class PaymentContext {
    var strategy: Option<Strategy>

    /** A fresh context has no strategy (the Java field starts as null). */
    constructor ()
      ensures strategy == None
    {
      strategy := None;
    }

    /**
     * Stores the new strategy, replacing whatever was selected before.
     * Java lets a caller pass null here, which is `None`.
     */
    method SetStrategy(s: Option<Strategy>)
      modifies this
      ensures strategy == s
    {
      strategy := s;
    }

    /**
     * With no strategy, reports "not selected" and pays nothing; otherwise
     * delegates to the selected strategy's `pay` with the same amount.
     */
    method ExecutePayment(amount: real) returns (outcome: PaymentOutcome)
      ensures outcome == NotSelected <==> strategy == None
      ensures strategy.Some? ==> outcome == Paid(Pay(strategy.value, amount))
      ensures outcome.Paid? ==> outcome.receipt.amount == amount
    {
      match strategy
      case None =>
        outcome := NotSelected;
      case Some(s) =>
        outcome := Paid(Pay(s, amount));
    }
  }

  /**
   * A client of the context: select one strategy, then another, then pay.
   * Only the second strategy is charged, with the unchanged amount.
   */
  method PayWithReplacedStrategy(first: Option<Strategy>, second: Strategy, amount: real) returns (outcome: PaymentOutcome)
    ensures outcome == Paid(Receipt(amount, KindOf(second), IdentifierOf(second)))
  {
    var context := new PaymentContext();
    context.SetStrategy(first);
    context.SetStrategy(Some(second));
    outcome := context.ExecutePayment(amount);
  }

  /**
   * A client that never selects a strategy, or selects one and then passes
   * null: the "not selected" notice, whatever the amount.
   */
  method PayWithoutStrategy(selected: Option<Strategy>, amount: real) returns (never: PaymentOutcome, cleared: PaymentOutcome)
    ensures never == NotSelected && cleared == NotSelected
  {
    var unset := new PaymentContext();
    never := unset.ExecutePayment(amount);
    var reset := new PaymentContext();
    reset.SetStrategy(selected);
    reset.SetStrategy(None);
    cleared := reset.ExecutePayment(amount);
  }
}
