/**
 * The Observer half of the program: a currency exchange that holds the
 * current USD rate and an ordered list of subscribed observers, and three
 * kinds of observer that react to a new rate.
 *
 * Every line an observer or the exchange prints is modelled as an `Event`;
 * the methods that print return the events they produce, in order.
 * The rate is a Java `double`, abstracted here as `real`.
 */
module Exchange {

  /** The three observer classes. */
  datatype ObserverKind = Bank | Investor | ExchangeOffice

  /**
   * An observer object. Java compares observers by reference; here each
   * created observer carries its own `id`, so two observers are equal
   * exactly when they are the same object.
   */
  datatype Observer = Observer(id: nat, kind: ObserverKind)

  /** The line an observer prints from `update`. */
  datatype Reaction =
    | BankReceived(rate: real)
    | InvestorSell
    | InvestorBuy
    | OfficeDisplayed(rate: real)

  /** The lines the exchange's operations print. */
  datatype Event =
    | RateAnnounced(rate: real)
    | Delivered(observer: Observer, rate: real, reaction: Reaction)

  /** The investor sells only when the rate is strictly above this. */
  const InvestorThreshold: real := 500.0

  /** `InvestorObserver.update`: sell above the threshold, buy at or below it. */
  function InvestorUpdate(rate: real): (r: Reaction)
    ensures r == InvestorSell <==> rate > 500.0
    ensures r == InvestorBuy <==> rate <= 500.0
  {
    if rate > InvestorThreshold then InvestorSell else InvestorBuy
  }

  /** Each observer class's `update`: bank and office react unconditionally, the investor by threshold. */
  function Update(o: Observer, rate: real): (r: Reaction)
    ensures o.kind == Bank ==> r == BankReceived(rate)
    ensures o.kind == Investor ==> r == InvestorUpdate(rate)
    ensures o.kind == ExchangeOffice ==> r == OfficeDisplayed(rate)
  {
    match o.kind
    case Bank => BankReceived(rate)
    case Investor => InvestorUpdate(rate)
    case ExchangeOffice => OfficeDisplayed(rate)
  }

  /** The investor sells exactly above 500 and buys otherwise, 500 itself included. */
  lemma InvestorSellsIffAboveThreshold(rate: real)
    ensures InvestorUpdate(rate) == InvestorSell <==> rate > 500.0
    ensures InvestorUpdate(rate) == InvestorBuy <==> rate <= 500.0
    ensures InvestorUpdate(500.0) == InvestorBuy
  {
  }

  /** A higher rate never turns a sell decision into a buy decision. */
  lemma InvestorMonotone(low: real, high: real)
    requires low <= high
    ensures InvestorUpdate(low) == InvestorSell ==> InvestorUpdate(high) == InvestorSell
    ensures InvestorUpdate(high) == InvestorBuy ==> InvestorUpdate(low) == InvestorBuy
  {
  }

  /**
   * Each kind prints its own line: the bank's and the office's show the
   * rate they were given; the investor's is a decision and shows no rate.
   */
  lemma ReactionShowsDeliveredRate(o: Observer, rate: real)
    ensures o.kind == Bank <==> Update(o, rate).BankReceived?
    ensures o.kind == ExchangeOffice <==> Update(o, rate).OfficeDisplayed?
    ensures o.kind != Investor ==> Update(o, rate).rate == rate
    ensures o.kind == Investor <==> Update(o, rate) in {InvestorSell, InvestorBuy}
  {
  }

  /** One call of `update` on one observer. */
  function Deliver(o: Observer, rate: real): (e: Event)
    ensures e.Delivered? && e.observer == o && e.rate == rate
    ensures e.reaction == Update(o, rate)
  {
    Delivered(o, rate, Update(o, rate))
  }

  /** The lines of notifying every observer of `obs`, in list order, with `rate`. */
  function Deliveries(obs: seq<Observer>, rate: real): (d: seq<Event>)
    ensures |d| == |obs|
  {
    if obs == [] then [] else Deliveries(obs[..|obs| - 1], rate) + [Deliver(obs[|obs| - 1], rate)]
  }

  /** The observers that received a delivery, in the order they received it. */
  function Recipients(events: seq<Event>): seq<Observer>
  {
    if events == [] then []
    else match events[|events| - 1]
      case Delivered(o, _, _) => Recipients(events[..|events| - 1]) + [o]
      case RateAnnounced(_) => Recipients(events[..|events| - 1])
  }

  /** Every delivery in `events` carries `rate`. */
  predicate AllCarry(events: seq<Event>, rate: real)
  {
    forall i :: 0 <= i < |events| ==> events[i].Delivered? && events[i].rate == rate
  }

  /** The i-th delivery goes to the i-th observer of the list. */
  lemma {:induction false} DeliveriesAt(obs: seq<Observer>, rate: real, i: nat)
    requires i < |obs|
    ensures Deliveries(obs, rate)[i] == Deliver(obs[i], rate)
  {
    if i < |obs| - 1 {
      DeliveriesAt(obs[..|obs| - 1], rate, i);
    }
  }

  /** Notifying a concatenated list is notifying its parts one after the other. */
  lemma {:induction false} DeliveriesAppend(a: seq<Observer>, b: seq<Observer>, rate: real)
    ensures Deliveries(a + b, rate) == Deliveries(a, rate) + Deliveries(b, rate)
  {
    if b != [] {
      var b' := b[..|b| - 1];
      assert (a + b)[..|a + b| - 1] == a + b';
      DeliveriesAppend(a, b', rate);
    } else {
      assert a + b == a;
    }
  }

  /** A notification reaches exactly the listed observers, in list order, all with the same rate. */
  lemma {:induction false} DeliveriesReachExactlyTheList(obs: seq<Observer>, rate: real)
    ensures Recipients(Deliveries(obs, rate)) == obs
    ensures AllCarry(Deliveries(obs, rate), rate)
  {
    if obs != [] {
      var init := obs[..|obs| - 1];
      var d := Deliveries(obs, rate);
      assert d[..|d| - 1] == Deliveries(init, rate);
      DeliveriesReachExactlyTheList(init, rate);
      assert obs == init + [obs[|obs| - 1]];
    }
  }

  /** The position of the first occurrence of `x` in `s`. */
  function IndexOf<T(==)>(s: seq<T>, x: T): (i: nat)
    requires x in s
    ensures i < |s| && s[i] == x && x !in s[..i]
  {
    if s[0] == x then 0 else 1 + IndexOf(s[1..], x)
  }

  /** `List.remove(Object)`: drops the first element equal to `x`, or returns `s` if there is none. */
  function RemoveFirst<T(==)>(s: seq<T>, x: T): (r: seq<T>)
    ensures x !in s ==> r == s
    ensures x in s ==> |r| == |s| - 1
  {
    if s == [] then []
    else if s[0] == x then s[1..]
    else [s[0]] + RemoveFirst(s[1..], x)
  }

  /** When `x` is present, the result is the list with exactly its first occurrence cut out. */
  lemma {:induction false} RemoveFirstCutsFirstOccurrence<T>(s: seq<T>, x: T)
    requires x in s
    ensures RemoveFirst(s, x) == s[..IndexOf(s, x)] + s[IndexOf(s, x) + 1..]
  {
    if s[0] == x {
      assert s[..0] + s[1..] == s[1..];
    } else {
      var tail := s[1..];
      var j := IndexOf(tail, x);
      RemoveFirstCutsFirstOccurrence(tail, x);
      assert IndexOf(s, x) == j + 1;
      assert s[..j + 1] == [s[0]] + tail[..j];
      assert s[j + 2..] == tail[j + 1..];
    }
  }

  /** Removal takes away one copy of `x` and nothing else. */
  lemma {:induction false} RemoveFirstMultiset<T>(s: seq<T>, x: T)
    ensures multiset(RemoveFirst(s, x)) == multiset(s) - multiset{x}
  {
    if s != [] {
      var tail := s[1..];
      assert s == [s[0]] + tail;
      assert multiset(s) == multiset{s[0]} + multiset(tail);
      if s[0] != x {
        RemoveFirstMultiset(tail, x);
        assert RemoveFirst(s, x) == [s[0]] + RemoveFirst(tail, x);
        assert multiset(RemoveFirst(s, x)) == multiset{s[0]} + (multiset(tail) - multiset{x});
      }
    }
  }

  /** Subscribing an observer that was not yet listed and then removing it restores the list. */
  lemma {:induction false} RemoveAfterAdd<T>(s: seq<T>, x: T)
    requires x !in s
    ensures RemoveFirst(s + [x], x) == s
  {
    if s != [] {
      assert (s + [x])[1..] == s[1..] + [x];
      RemoveAfterAdd(s[1..], x);
    }
  }

  /** Removing an already listed observer does not reach past it: a later subscription survives. */
  lemma {:induction false} RemoveBeforeAdd<T>(s: seq<T>, x: T, y: T)
    requires x in s
    ensures RemoveFirst(s + [y], x) == RemoveFirst(s, x) + [y]
  {
    if s[0] != x {
      assert (s + [y])[1..] == s[1..] + [y];
      RemoveBeforeAdd(s[1..], x, y);
    }
  }

  /** The concrete subject: the subscribed observers in subscription order, and the current rate. */
  class CurrencyExchange {
    var observers: seq<Observer>
    var usdRate: real

    /** A new exchange has no observers and the Java default rate 0.0. */
    constructor ()
      ensures observers == [] && usdRate == 0.0
    {
      observers := [];
      usdRate := 0.0;
    }

    /** Stores the rate, announces it, then notifies every currently subscribed observer with it. */
    method SetUsdRate(rate: real) returns (output: seq<Event>)
      modifies this`usdRate
      ensures usdRate == rate
      ensures output == [RateAnnounced(rate)] + Deliveries(observers, rate)
    {
      usdRate := rate;
      var notices := NotifyObservers();
      output := [RateAnnounced(rate)] + notices;
    }

    method GetUsdRate() returns (rate: real)
      ensures rate == usdRate
    {
      rate := usdRate;
    }

    /** Appends the observer; an observer already listed is listed again. */
    method AddObserver(o: Observer)
      modifies this`observers
      ensures observers == old(observers) + [o]
    {
      observers := observers + [o];
    }

    /** Removes the first listed occurrence of the observer; does nothing if it is not listed. */
    method RemoveObserver(o: Observer)
      modifies this`observers
      ensures observers == RemoveFirst(old(observers), o)
      ensures o !in old(observers) ==> observers == old(observers)
      ensures o in old(observers) ==>
        var i := IndexOf(old(observers), o);
        observers == old(observers)[..i] + old(observers)[i + 1..]
    {
      if o in observers {
        RemoveFirstCutsFirstOccurrence(observers, o);
      }
      observers := RemoveFirst(observers, o);
    }

    /** Calls `update` with the current rate on each listed observer, in list order. */
    method NotifyObservers() returns (output: seq<Event>)
      ensures output == Deliveries(observers, usdRate)
      ensures |output| == |observers|
      ensures forall i :: 0 <= i < |observers| ==>
        output[i] == Delivered(observers[i], usdRate, Update(observers[i], usdRate))
    {
      output := [];
      var i := 0;
      while i < |observers|
        invariant 0 <= i <= |observers|
        invariant output == Deliveries(observers[..i], usdRate)
      {
        assert observers[..i + 1][..i] == observers[..i];
        output := output + [Deliver(observers[i], usdRate)];
        i := i + 1;
      }
      assert observers[..i] == observers;
      forall k | 0 <= k < |observers|
        ensures output[k] == Delivered(observers[k], usdRate, Update(observers[k], usdRate))
      {
        DeliveriesAt(observers, usdRate, k);
      }
    }
  }

  /**
   * A client of the exchange: subscribe two observers, set the rate twice
   * and read it back. The reading is the last rate set, and the second
   * change reaches both observers, in subscription order, with that rate.
   */
  method SetRatesAndRead(a: Observer, b: Observer, first: real, second: real)
    returns (read: real, output: seq<Event>)
    ensures read == second
    ensures output == [RateAnnounced(second), Deliver(a, second), Deliver(b, second)]
  {
    var exchange := new CurrencyExchange();
    exchange.AddObserver(a);
    exchange.AddObserver(b);
    var _ := exchange.SetUsdRate(first);
    output := exchange.SetUsdRate(second);
    read := exchange.GetUsdRate();
    assert exchange.observers == [a, b];
    DeliveriesAt([a, b], second, 0);
    DeliveriesAt([a, b], second, 1);
  }
}
