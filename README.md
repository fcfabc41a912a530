# Strategy and Observer demo, modelled in Dafny

The program is a teaching example of two design patterns, written as one Java file.

- **Payment (Strategy pattern).** Three payment strategies each hold one identifier: a card number, a PayPal e-mail or a crypto wallet address. Each one's `pay` prints the amount together with that identifier. A `PaymentContext` holds at most one selected strategy. `executePayment` reports "not selected" when no strategy is set; otherwise it hands the amount to the selected strategy.
- **Currency exchange (Observer pattern).** A `CurrencyExchange` holds the current USD rate and an ordered list of subscribed observers. The list allows duplicates, and removal compares by identity. Setting the rate stores it, announces it, and then notifies every listed observer in list order. The bank and the exchange office react unconditionally. The investor sells when the rate is above 500 and buys otherwise.
- **Entry point.** A menu number selects a strategy, which is then charged once. After that, a fixed observer demonstration runs.

Files:

- `wrappers.dfy`: the `Option` type, which stands for a possibly-null reference.
- `payment.dfy`: module `Payment`, with the strategies as the datatype `Strategy` and the context as the class `PaymentContext`.
- `exchange.dfy`: module `Exchange`, with the observers as the datatype `Observer` and the subject as the class `CurrencyExchange`.
- `program.dfy`: module `Program`, with the menu mapping, the observer demonstration and the whole run.

Printed lines are modelled as values, not strings. `pay` produces a `Receipt`; `executePayment` produces a `PaymentOutcome`; the exchange's lines are `Event`s (`RateAnnounced`, `Delivered(observer, rate, reaction)`); the entry point's lines are `ProgramEvent`s. Each method that prints returns the events it prints, in order. Java `double` values (the amount and the rate) are `real`. Java compares observers by reference. In the model, each observer object carries an `id`, and datatype equality stands for object identity. That holds only if every created observer gets an id of its own. Nothing in the model enforces this; it is an assumption on clients. Two values with the same id and kind count as one observer, where Java would treat two separate `new BankObserver()` objects as two. The demonstration gives its three observers the distinct ids 0, 1 and 2.

The three values `main` reads from the console are the parameters `choice`, `line` and `amount` of `Program.Run`.

## Model

| member | source | states |
|---|---|---|
| `Payment.Make` | src/Main.java:12-49 | building a strategy of a given kind around an identifier gives a strategy of that kind that holds exactly that identifier |
| `Payment.Pay` | src/Main.java:19-48 | each strategy's `pay` reports the amount it was given, unchanged, together with its own kind and its stored card number, e-mail or wallet address |
| `Payment.ReceiptIdentifiesStrategy` | src/Main.java:21-47 | a payment's line identifies its strategy completely: rebuilding a strategy from the line's kind and identifier gives the original strategy back |
| `Payment.PayInjective` | src/Main.java:21-47 | two payments print the same line only if they used the same strategy and the same amount |
| `Payment.PaymentContext.constructor` | src/Main.java:52-53 | a new context has no strategy selected (the field starts as null) |
| `Payment.PaymentContext.SetStrategy` | src/Main.java:55-57 | the given strategy, or null, replaces whatever was selected before |
| `Payment.PaymentContext.ExecutePayment` | src/Main.java:59-65 | the outcome is "not selected" exactly when no strategy is set, and then no payment is made; otherwise it is the selected strategy's payment of the same amount |
| `Payment.PayWithReplacedStrategy` | src/Main.java:55-64 | after a strategy (or none) was selected and then replaced by a second one, paying charges only the second, with the given amount and the second's kind and identifier |
| `Payment.PayWithoutStrategy` | src/Main.java:59-61 | on a context that was never given a strategy, or whose strategy was reset to null, paying gives "not selected" for every amount |
| `Exchange.InvestorUpdate` | src/Main.java:124-133 | the investor's reaction is Sell exactly when the rate is strictly above 500, and Buy exactly when it is at most 500 |
| `Exchange.Update` | src/Main.java:117-140 | `update` dispatches on the observer's class: the bank acknowledges the rate, the office displays it, and the investor decides by threshold |
| `Exchange.Deliver` | src/Main.java:110 | one call `observer.update(usdRate)` is a delivery to that observer, carrying that rate and that observer's reaction to it |
| `Exchange.InvestorSellsIffAboveThreshold` | src/Main.java:126-131 | the investor sells if and only if the rate is strictly above 500, and buys if and only if it is at most 500; exactly 500 buys |
| `Exchange.InvestorMonotone` | src/Main.java:127-131 | raising the rate never turns a sell into a buy, and lowering it never turns a buy into a sell |
| `Exchange.ReactionShowsDeliveredRate` | src/Main.java:117-140 | each class prints its own kind of line: a bank line only for the bank, a display line only for the office, each showing exactly the rate given; only the investor reacts with a buy or sell decision, which shows no rate |
| `Exchange.Deliveries` | src/Main.java:107-112 | notifying a list yields exactly one delivery per list entry |
| `Exchange.DeliveriesAt` | src/Main.java:109-111 | the i-th delivery goes to the i-th listed observer, with the given rate and that observer's reaction to it |
| `Exchange.DeliveriesAppend` | src/Main.java:109-111 | notifying a concatenated list is the same as notifying its first part and then its second part, so the delivery order follows the list order |
| `Exchange.DeliveriesReachExactlyTheList` | src/Main.java:107-112 | the recipients of a notification, in order, are exactly the listed observers, and every delivery carries the same rate |
| `Exchange.IndexOf` | src/Main.java:103-105 | the first position holding the observer: it holds the observer, and no earlier position does |
| `Exchange.RemoveFirst` | src/Main.java:103-105 | removal leaves the list unchanged when the observer is absent, and makes it exactly one shorter when it is present |
| `Exchange.RemoveFirstCutsFirstOccurrence` | src/Main.java:103-105 | when the observer is present, removal cuts out exactly its first occurrence and keeps everything before and after it in order |
| `Exchange.RemoveFirstMultiset` | src/Main.java:103-105 | removal takes away one copy of the observer, if there is one, and no other entry |
| `Exchange.RemoveAfterAdd` | src/Main.java:98-105 | adding an observer that was not listed and then removing it gives back the original list |
| `Exchange.RemoveBeforeAdd` | src/Main.java:98-105 | removing an observer that is already listed, after a later observer was added, leaves the later one at the end (removal stops at the first match) |
| `Exchange.CurrencyExchange.constructor` | src/Main.java:84-85 | a new exchange has an empty observer list and Java's default rate, 0.0 |
| `Exchange.CurrencyExchange.SetUsdRate` | src/Main.java:87-91 | the stored rate becomes the new rate and the list is untouched; the new rate is announced and then delivered to every currently listed observer, in list order |
| `Exchange.CurrencyExchange.GetUsdRate` | src/Main.java:93-95 | returns the stored rate, i.e. the last rate set |
| `Exchange.SetRatesAndRead` | src/Main.java:87-95 | after two rate changes on an exchange with two subscribers, reading the rate gives the last rate set, and that change was announced and then delivered to both subscribers in subscription order |
| `Exchange.CurrencyExchange.AddObserver` | src/Main.java:98-100 | the observer is appended at the end; earlier entries stay as they were, and an observer already listed is listed again |
| `Exchange.CurrencyExchange.RemoveObserver` | src/Main.java:103-105 | only the first occurrence is removed, and the rest keep their relative order; an observer that is not listed leaves the list unchanged; the rate is untouched |
| `Exchange.CurrencyExchange.NotifyObservers` | src/Main.java:108-112 | exactly one delivery per list entry, in list order, each carrying the current rate and that observer's reaction; neither the list nor the rate changes |
| `Program.MenuChoice` | src/Main.java:161-180 | the menu number selects a strategy exactly when it is 1, 2 or 3; any other number is an invalid choice |
| `Program.MenuChoiceIsInverseOfNumber` | src/Main.java:161-177 | 1, 2 and 3 pick the card, PayPal and crypto strategies respectively, and no other number picks any of them |
| `Program.ObserverDemo` | src/Main.java:191-208 | the demonstration prints this trace: at 495 the bank, the investor (who buys) and the office; at 510 the same three, with the investor selling; the bank-removed notice; at 530 only the investor (who sells) and then the office, with nothing for the bank |
| `Program.Run` | src/Main.java:145-210 | an invalid menu number prints only its notice and ends the run; a valid one pays the entered amount with the chosen strategy built around the entered line, then runs the observer demonstration |

## Left out

- Console reads, the menu text and the prompts (`Scanner`, `print`, `scanner.close()`): the three values that are read become parameters; the menu and prompt lines are not part of the output.
- The message texts and Java's `double`-to-string formatting: printed lines are tagged values.
- IEEE floating point for the amount and the rate: both are `real`. The model only stores them, passes them on, and compares the rate with 500.
- The `PaymentStrategy`, `Observer` and `Subject` interfaces and dynamic dispatch: the concrete classes become the variants of a datatype, and `pay`/`update` become functions that match on the variant.
- Exceptions from `Scanner` on malformed input (`InputMismatchException`, `NoSuchElementException`): as in the source, input is taken to be well formed.
- `addObserver(null)`: the model has no null observer, so the `NullPointerException` that a later notification would raise is not modelled.
