/** A partition's store as a map, the writes that build it, and the list of deliveries those
    writes came from. Replaying the writes and folding the deliveries give the same store. */
module Histories {
  import opened Events
  import opened Folds

  type Store = map<string, Record>

  function Get(s: Store, key: string): Option<Record> {
    if key in s then Some(s[key]) else None
  }

  /** One changelog value; a missing value is a tombstone. */
  datatype Write = Write(key: string, value: Option<Record>)

  function Apply(s: Store, w: Write): Store {
    if w.value.Some? then s[w.key := w.value.value] else s - {w.key}
  }

  /** Last write wins, a tombstone deletes. */
  function Replay(s: Store, ws: seq<Write>): Store {
    if ws == [] then s else Apply(Replay(s, ws[..|ws| - 1]), ws[|ws| - 1])
  }

  lemma {:induction false} ReplayAppend(s: Store, ws: seq<Write>, w: Write)
    ensures Replay(s, ws + [w]) == Apply(Replay(s, ws), w)
  {
    assert (ws + [w])[..|ws|] == ws;
  }

  lemma {:induction false} ReplayConcat(s: Store, ws: seq<Write>, vs: seq<Write>)
    ensures Replay(s, ws + vs) == Replay(Replay(s, ws), vs)
  {
    if vs == [] {
      assert ws + vs == ws;
    } else {
      assert (ws + vs)[..|ws + vs| - 1] == ws + vs[..|vs| - 1];
      ReplayConcat(s, ws, vs[..|vs| - 1]);
    }
  }

  /** The last write to a key. */
  function LastWrite(ws: seq<Write>, key: string): Option<Write> {
    if ws == [] then None
    else if ws[|ws| - 1].key == key then Some(ws[|ws| - 1])
    else LastWrite(ws[..|ws| - 1], key)
  }

  lemma {:induction false} ReplayAtKey(s: Store, ws: seq<Write>, key: string)
    ensures Get(Replay(s, ws), key) == if LastWrite(ws, key).Some? then LastWrite(ws, key).value.value else Get(s, key)
  {
    if ws != [] {
      ReplayAtKey(s, ws[..|ws| - 1], key);
    }
  }

  /** One successful handling: where the message sat and the event it carried. */
  datatype Delivery = Delivery(offset: nat, event: Event)

  function Handled(s: Store, e: Event): Store {
    s[e.orderId := Deliver(Get(s, e.orderId), e).record]
  }

  function FoldAll(h: seq<Delivery>): Store {
    if h == [] then map[] else Handled(FoldAll(h[..|h| - 1]), h[|h| - 1].event)
  }

  /** The record a handled event sends to the changelog. */
  function WriteOf(s: Store, e: Event): Write {
    Write(e.orderId, Some(Deliver(Get(s, e.orderId), e).record))
  }

  function WritesOf(h: seq<Delivery>): seq<Write> {
    if h == [] then []
    else WritesOf(h[..|h| - 1]) + [WriteOf(FoldAll(h[..|h| - 1]), h[|h| - 1].event)]
  }

  lemma {:induction false} HistoryAppend(h: seq<Delivery>, d: Delivery)
    ensures FoldAll(h + [d]) == Handled(FoldAll(h), d.event)
    ensures WritesOf(h + [d]) == WritesOf(h) + [WriteOf(FoldAll(h), d.event)]
  {
    assert (h + [d])[..|h|] == h;
  }

  lemma {:induction false} WritesLength(h: seq<Delivery>)
    ensures |WritesOf(h)| == |h|
  {
    if h != [] { WritesLength(h[..|h| - 1]); }
  }

  /** The writes of an earlier part of a history are the earlier part of its writes. */
  lemma {:induction false} WritesPrefix(h: seq<Delivery>, n: nat)
    requires n <= |h|
    ensures |WritesOf(h)| == |h| && WritesOf(h)[..n] == WritesOf(h[..n])
  {
    WritesLength(h);
    if n == |h| {
      assert h[..n] == h;
    } else {
      WritesPrefix(h[..|h| - 1], n);
      assert h[..|h| - 1][..n] == h[..n];
    }
  }

  /** A rebuild from the changelog is the fold of exactly the deliveries whose records are in it. */
  lemma {:induction false} ReplayIsFold(h: seq<Delivery>)
    ensures Replay(map[], WritesOf(h)) == FoldAll(h)
  {
    if h != [] {
      var init := h[..|h| - 1];
      ReplayIsFold(init);
      ReplayAppend(map[], WritesOf(init), WriteOf(FoldAll(init), h[|h| - 1].event));
    }
  }

  // ---- What the folded store says about each order ----

  /** The events of one order, in delivery order. */
  function EventsFor(h: seq<Delivery>, key: string): seq<Event> {
    if h == [] then []
    else
      var rest := EventsFor(h[..|h| - 1], key);
      if h[|h| - 1].event.orderId == key then rest + [h[|h| - 1].event] else rest
  }

  lemma {:induction false} FoldIsPerOrder(h: seq<Delivery>, key: string)
    ensures Get(FoldAll(h), key) == DeliverAll(None, EventsFor(h, key))
  {
    if h != [] {
      FoldIsPerOrder(h[..|h| - 1], key);
      var rest, e := EventsFor(h[..|h| - 1], key), h[|h| - 1].event;
      assert (rest + [e])[..|rest|] == rest;
    }
  }

  lemma {:induction false} RowNamesItsOrder(h: seq<Delivery>, key: string)
    ensures key in FoldAll(h) ==> FoldAll(h)[key].fold.orderId == key
  {
    if h != [] { RowNamesItsOrder(h[..|h| - 1], key); }
  }

  lemma {:induction false} EventsForMembers(h: seq<Delivery>, key: string)
    ensures forall e :: e in EventsFor(h, key) <==> (exists d :: d in h && d.event == e && e.orderId == key)
  {
    if h != [] {
      var init, last := h[..|h| - 1], h[|h| - 1];
      EventsForMembers(init, key);
      assert h == init + [last];
    }
  }

  /** An order is in the store exactly when one of its events was handled; its row then carries
      the highest handled sequence and counts every handling of that order. */
  lemma {:induction false} FoldAtKey(h: seq<Delivery>, key: string)
    ensures key in FoldAll(h) <==> exists d :: d in h && d.event.orderId == key
    ensures key in FoldAll(h) ==>
              FoldAll(h)[key].fold.orderId == key && FoldAll(h)[key].handledCount == |EventsFor(h, key)|
    ensures key in FoldAll(h) ==>
              forall d :: d in h && d.event.orderId == key ==> d.event.sequence <= FoldAll(h)[key].fold.lastSequence
    ensures key in FoldAll(h) ==>
              exists d :: d in h && d.event.orderId == key && Reflects(FoldAll(h)[key], d.event)
  {
    FoldIsPerOrder(h, key);
    RowNamesItsOrder(h, key);
    EventsForMembers(h, key);
    var es := EventsFor(h, key);
    if es != [] {
      DeliverAllIsTop(es);
      var e :| e in es && Reflects(FoldAll(h)[key], e);
      var d :| d in h && d.event == e && e.orderId == key;
      assert es[0] in es;
    } else {
      forall d | d in h ensures d.event.orderId != key {
        assert d.event !in es;
      }
    }
  }

  // ---- Totals over a whole store ----

  ghost function CountOver(keys: set<string>, s: Store): nat
    requires keys <= s.Keys
  {
    if keys == {} then 0
    else var k :| k in keys; s[k].handledCount + CountOver(keys - {k}, s)
  }

  /** The sum of handled_count over every stored order. */
  ghost function TotalHandled(s: Store): nat {
    CountOver(s.Keys, s)
  }

  lemma {:induction false} CountOverPick(keys: set<string>, s: Store, k: string)
    requires keys <= s.Keys && k in keys
    ensures CountOver(keys, s) == s[k].handledCount + CountOver(keys - {k}, s)
  {
    var j :| j in keys && CountOver(keys, s) == s[j].handledCount + CountOver(keys - {j}, s);
    if j != k {
      CountOverPick(keys - {j}, s, k);
      CountOverPick(keys - {k}, s, j);
      assert keys - {j} - {k} == keys - {k} - {j};
    }
  }

  lemma {:induction false} CountOverSame(keys: set<string>, s: Store, t: Store)
    requires keys <= s.Keys && keys <= t.Keys
    requires forall k :: k in keys ==> s[k] == t[k]
    ensures CountOver(keys, s) == CountOver(keys, t)
  {
    if keys != {} {
      var k :| k in keys;
      CountOverPick(keys, s, k);
      CountOverPick(keys, t, k);
      CountOverSame(keys - {k}, s, t);
    }
  }

  lemma {:induction false} HandledAddsOne(s: Store, e: Event)
    ensures TotalHandled(Handled(s, e)) == TotalHandled(s) + 1
  {
    var k, t := e.orderId, Handled(s, e);
    var rest := s.Keys - {k};
    assert t.Keys - {k} == rest;
    CountOverPick(t.Keys, t, k);
    CountOverSame(rest, s, t);
    if k in s {
      CountOverPick(s.Keys, s, k);
    } else {
      assert rest == s.Keys;
    }
  }

  /** The store's delivery counts add up to the number of handlings folded into it. */
  lemma {:induction false} TotalIsLength(h: seq<Delivery>)
    ensures TotalHandled(FoldAll(h)) == |h|
  {
    if h != [] {
      TotalIsLength(h[..|h| - 1]);
      HandledAddsOne(FoldAll(h[..|h| - 1]), h[|h| - 1].event);
    }
  }

  function Offsets(h: seq<Delivery>): set<nat> {
    set d | d in h :: d.offset
  }
}
