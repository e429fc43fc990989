/**
 The aggregator of the intent engine (`build_customer_stats`): groups event
 records by customer id, keeping per customer the events in arrival order, a
 count per event type and a has-purchased flag.
 */
module Aggregation {
  import opened Events
  import opened Counts

  /** One customer's rollup. */
  datatype Aggregate = Aggregate(events: seq<Event>, counts: Counter, hasPurchase: bool)

  /**
   The default factory of the per-customer dictionary: a first-seen customer
   starts with no events and an aggregate that is already coherent (so its
   counter is empty and its flag unset).
   */
  function NewAggregate(): (a: Aggregate)
    ensures a.events == []
    ensures Coherent(a)
  {
    Aggregate([], map[], false)
  }

  /**
   The per-customer dictionary: Python's insertion-ordered `defaultdict` as a map
   plus the sequence of its keys in insertion order.
   */
  datatype Stats = Stats(order: seq<string>, byCustomer: map<string, Aggregate>)

  /** The body of the aggregation loop for one event of the aggregate's customer. */
  function AddEvent(a: Aggregate, e: Event): (r: Aggregate)
    ensures r.events == a.events + [e]
    ensures forall u :: Get(r.counts, u) == Get(a.counts, u) + (if u == TypeOf(e) then 1 else 0)
    ensures r.counts.Keys == a.counts.Keys + {TypeOf(e)}
    ensures r.hasPurchase == (a.hasPurchase || TypeOf(e) == Purchase)
  {
    var t := TypeOf(e);
    Aggregate(a.events + [e], a.counts[t := Get(a.counts, t) + 1], a.hasPurchase || t == Purchase)
  }

  /** One turn of the aggregation loop: lookup-or-insert the customer, then add the event. */
  function Record(s: Stats, e: Event): Stats
  {
    var c := CustomerOf(e);
    if c in s.byCustomer then Stats(s.order, s.byCustomer[c := AddEvent(s.byCustomer[c], e)])
    else Stats(s.order + [c], s.byCustomer[c := AddEvent(NewAggregate(), e)])
  }

  /** The stats after aggregating `events` from left to right. */
  function CustomerStats(events: seq<Event>): Stats
  {
    if events == [] then Stats([], map[])
    else Record(CustomerStats(events[..|events| - 1]), events[|events| - 1])
  }

  /** `build_customer_stats` */
  method BuildCustomerStats(events: seq<Event>) returns (stats: Stats)
    ensures stats == CustomerStats(events)
    ensures forall c :: c in stats.order <==> c in stats.byCustomer
    ensures forall c :: c in stats.byCustomer ==> Coherent(stats.byCustomer[c])
    ensures EventTotal(stats.order, stats.byCustomer) == |events|
  {
    var order: seq<string> := [];
    var byCustomer: map<string, Aggregate> := map[];
    for i := 0 to |events|
      invariant Stats(order, byCustomer) == CustomerStats(events[..i])
    {
      assert events[..i + 1][..i] == events[..i];
      var e := events[i];
      var cid := CustomerOf(e);
      var etype := TypeOf(e);
      if cid !in byCustomer {
        byCustomer := byCustomer[cid := NewAggregate()];
        order := order + [cid];
      }
      var agg := byCustomer[cid];
      agg := agg.(events := agg.events + [e]);
      agg := agg.(counts := agg.counts[etype := Get(agg.counts, etype) + 1]);
      if etype == Purchase {
        agg := agg.(hasPurchase := true);
      }
      byCustomer := byCustomer[cid := agg];
    }
    assert events[..|events|] == events;
    stats := Stats(order, byCustomer);
    OrderMatchesKeys(events);
    AllCoherent(events);
    EventsConserved(events);
  }

  // ---------------------------------------------------------------------------
  // Reference definitions over the input sequence

  /** The events of customer `c`, in input order. */
  function EventsOf(events: seq<Event>, c: string): seq<Event>
  {
    if events == [] then []
    else
      var last := events[|events| - 1];
      EventsOf(events[..|events| - 1], c) + (if CustomerOf(last) == c then [last] else [])
  }

  /** The number of events of type `t` in `events`. */
  function CountOfType(events: seq<Event>, t: string): nat
  {
    if events == [] then 0
    else CountOfType(events[..|events| - 1], t) + (if TypeOf(events[|events| - 1]) == t then 1 else 0)
  }

  /** The index of the first event of customer `c`, or `|events|` when there is none. */
  function FirstIndex(events: seq<Event>, c: string): (r: nat)
    ensures r <= |events|
    ensures r < |events| ==> CustomerOf(events[r]) == c
    ensures forall i :: 0 <= i < r ==> CustomerOf(events[i]) != c
  {
    if events == [] then 0
    else
      var prefix := events[..|events| - 1];
      var f := FirstIndex(prefix, c);
      if f < |prefix| then f
      else if CustomerOf(events[|events| - 1]) == c then |prefix|
      else |events|
  }

  /** The counts of all customers listed in `order`, added up. */
  ghost function EventTotal(order: seq<string>, byCustomer: map<string, Aggregate>): nat
  {
    if order == [] then 0
    else
      var c := order[|order| - 1];
      EventTotal(order[..|order| - 1], byCustomer) + (if c in byCustomer then Total(byCustomer[c].counts) else 0)
  }

  /**
   The invariant every aggregate keeps: each count is the number of its events
   of that type, only observed types are keys, the counts add up to the number
   of events, and the flag says whether a purchase was counted.
   */
  ghost predicate Coherent(a: Aggregate)
  {
    && (forall t :: Get(a.counts, t) == CountOfType(a.events, t))
    && (forall t :: t in a.counts ==> a.counts[t] > 0)
    && Total(a.counts) == |a.events|
    && a.hasPurchase == (Get(a.counts, Purchase) > 0)
  }

  ghost predicate NoDuplicates(s: seq<string>)
  {
    forall i, j :: 0 <= i < j < |s| ==> s[i] != s[j]
  }

  // ---------------------------------------------------------------------------
  // Properties of the aggregation

  /** Adding an event keeps an aggregate coherent. */
  lemma AddEventCoherent(a: Aggregate, e: Event)
    requires Coherent(a)
    ensures Coherent(AddEvent(a, e))
  {
    var a' := AddEvent(a, e);
    var t := TypeOf(e);
    assert a'.events[..|a'.events| - 1] == a.events;
    forall u ensures Get(a'.counts, u) == CountOfType(a'.events, u) {
      assert CountOfType(a'.events, u) == CountOfType(a.events, u) + (if t == u then 1 else 0);
    }
    SumIncrement(a.counts, _ => 1, t);
  }

  /**
   One turn of the loop touches only the event's customer: that customer becomes
   a key (and is listed on first sight), its aggregate is its old one, or the
   default, with the event added, and every other customer is unchanged.
   */
  lemma RecordEffect(s: Stats, e: Event)
    ensures Record(s, e).byCustomer.Keys == s.byCustomer.Keys + {CustomerOf(e)}
    ensures Record(s, e).order == if CustomerOf(e) in s.byCustomer then s.order else s.order + [CustomerOf(e)]
    ensures Record(s, e).byCustomer[CustomerOf(e)] ==
      AddEvent(if CustomerOf(e) in s.byCustomer then s.byCustomer[CustomerOf(e)] else NewAggregate(), e)
    ensures forall c :: c in s.byCustomer && c != CustomerOf(e) ==> Record(s, e).byCustomer[c] == s.byCustomer[c]
  {
  }

  /** Aggregation never lists more customers than there are events. */
  lemma {:induction false} CustomerStatsSize(events: seq<Event>)
    ensures |CustomerStats(events).order| <= |events|
    ensures |CustomerStats(events).byCustomer| <= |events|
  {
    if events != [] {
      var prefix := events[..|events| - 1];
      CustomerStatsSize(prefix);
      var s := CustomerStats(prefix);
      var c := CustomerOf(events[|events| - 1]);
      if c in s.byCustomer {
        assert CustomerStats(events).byCustomer.Keys == s.byCustomer.Keys;
      } else {
        assert CustomerStats(events).byCustomer.Keys == s.byCustomer.Keys + {c};
      }
    }
  }

  /** The new aggregate of a first-seen customer is coherent. */
  /** Customers are listed exactly once each, and the list holds exactly the dictionary's keys. */
  lemma {:induction false} OrderMatchesKeys(events: seq<Event>)
    ensures forall c :: c in CustomerStats(events).order <==> c in CustomerStats(events).byCustomer
    ensures NoDuplicates(CustomerStats(events).order)
  {
    if events != [] {
      OrderMatchesKeys(events[..|events| - 1]);
    }
  }

  /** A customer is a key exactly when some input event carries that customer id. */
  lemma {:induction false} KeysAreSeenCustomers(events: seq<Event>)
    ensures forall c :: c in CustomerStats(events).byCustomer <==> FirstIndex(events, c) < |events|
  {
    if events != [] {
      KeysAreSeenCustomers(events[..|events| - 1]);
    }
  }

  /** A customer's events are the input's events with that id, in input order. */
  lemma {:induction false} EventsAreFiltered(events: seq<Event>)
    ensures forall c :: c in CustomerStats(events).byCustomer ==>
      CustomerStats(events).byCustomer[c].events == EventsOf(events, c)
  {
    if events != [] {
      var prefix := events[..|events| - 1];
      EventsAreFiltered(prefix);
      KeysAreSeenCustomers(prefix);
      var s := CustomerStats(prefix);
      forall c | c in CustomerStats(events).byCustomer
        ensures CustomerStats(events).byCustomer[c].events == EventsOf(events, c)
      {
        if c !in s.byCustomer {
          assert FirstIndex(prefix, c) == |prefix|;
          NoEventsOfUnseen(prefix, c);
        }
      }
    }
  }

  /** A customer not seen in a sequence has no events in it. */
  lemma {:induction false} NoEventsOfUnseen(events: seq<Event>, c: string)
    requires FirstIndex(events, c) == |events|
    ensures EventsOf(events, c) == []
  {
    if events != [] {
      NoEventsOfUnseen(events[..|events| - 1], c);
    }
  }

  /** Every aggregate is coherent: counts match events, and the purchase flag matches the counts. */
  lemma {:induction false} AllCoherent(events: seq<Event>)
    ensures forall c :: c in CustomerStats(events).byCustomer ==> Coherent(CustomerStats(events).byCustomer[c])
  {
    if events != [] {
      var prefix := events[..|events| - 1];
      var e := events[|events| - 1];
      AllCoherent(prefix);
      var s := CustomerStats(prefix);
      if CustomerOf(e) in s.byCustomer {
        AddEventCoherent(s.byCustomer[CustomerOf(e)], e);
      } else {
        AddEventCoherent(NewAggregate(), e);
      }
    }
  }

  /**
   What one customer's aggregate holds, stated against the input alone: its
   events are the input's events with its id, each count is the number of those
   events of that type, the counts add up to their number, and the flag is set
   exactly when a purchase is among them.
   */
  lemma AggregateOfCustomer(events: seq<Event>, c: string)
    requires FirstIndex(events, c) < |events|
    ensures c in CustomerStats(events).byCustomer
    ensures CustomerStats(events).byCustomer[c].events == EventsOf(events, c)
    ensures forall t :: Get(CustomerStats(events).byCustomer[c].counts, t) == CountOfType(EventsOf(events, c), t)
    ensures Total(CustomerStats(events).byCustomer[c].counts) == |EventsOf(events, c)|
    ensures CustomerStats(events).byCustomer[c].hasPurchase <==> CountOfType(EventsOf(events, c), Purchase) > 0
  {
    KeysAreSeenCustomers(events);
    EventsAreFiltered(events);
    AllCoherent(events);
  }

  /** Replacing one listed customer's aggregate changes the sum by the difference of their totals. */
  lemma {:induction false} EventTotalUpdate(order: seq<string>, m: map<string, Aggregate>, c: string, a: Aggregate)
    requires NoDuplicates(order)
    requires c in m
    ensures EventTotal(order, m[c := a]) + (if c in order then Total(m[c].counts) else 0)
         == EventTotal(order, m) + (if c in order then Total(a.counts) else 0)
  {
    if order != [] {
      var prefix := order[..|order| - 1];
      assert forall i, j :: 0 <= i < j < |prefix| ==> prefix[i] == order[i] && prefix[j] == order[j];
      EventTotalUpdate(prefix, m, c, a);
      if order[|order| - 1] == c {
        assert c !in prefix;
      }
    }
  }

  /** Adding a customer the list does not hold leaves the sum over the list unchanged. */
  lemma {:induction false} EventTotalFresh(order: seq<string>, m: map<string, Aggregate>, c: string, a: Aggregate)
    requires c !in order
    ensures EventTotal(order, m[c := a]) == EventTotal(order, m)
  {
    if order != [] {
      EventTotalFresh(order[..|order| - 1], m, c, a);
    }
  }

  /** No event is dropped: the counts of all customers add up to the number of input events. */
  lemma {:induction false} EventsConserved(events: seq<Event>)
    ensures EventTotal(CustomerStats(events).order, CustomerStats(events).byCustomer) == |events|
  {
    if events != [] {
      var prefix := events[..|events| - 1];
      var e := events[|events| - 1];
      var c := CustomerOf(e);
      var s := CustomerStats(prefix);
      EventsConserved(prefix);
      OrderMatchesKeys(prefix);
      AllCoherent(events);
      AllCoherent(prefix);
      var s' := CustomerStats(events);
      if c in s.byCustomer {
        EventTotalUpdate(s.order, s.byCustomer, c, s'.byCustomer[c]);
      } else {
        EventTotalFresh(s.order, s.byCustomer, c, s'.byCustomer[c]);
        assert s'.order[..|s'.order| - 1] == s.order;
      }
    }
  }

  /** Customers are listed in order of their first event in the input. */
  lemma {:induction false} FirstSeenOrder(events: seq<Event>)
    ensures forall i :: 0 <= i < |CustomerStats(events).order| ==>
      FirstIndex(events, CustomerStats(events).order[i]) < |events|
    ensures forall i, j :: 0 <= i < j < |CustomerStats(events).order| ==>
      FirstIndex(events, CustomerStats(events).order[i]) < FirstIndex(events, CustomerStats(events).order[j])
  {
    if events != [] {
      var prefix := events[..|events| - 1];
      FirstSeenOrder(prefix);
      KeysAreSeenCustomers(prefix);
      OrderMatchesKeys(prefix);
    }
  }
}
