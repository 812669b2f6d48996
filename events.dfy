/**
 * The process-wide event registry: a map from topic name to a record holding
 * the next key to hand out and the live callbacks by key. `listen` stores a
 * callback under a fresh key and returns an unsubscribe handle that deletes
 * exactly that key; `dispatch` calls the topic's callbacks in ascending key
 * order. Callbacks are abstract values of type L.
 */
module Events {
  import opened Common

  /** One topic's record: `count` is the next key, `funcs` the live callbacks. */
  datatype Entry<L> = Entry(count: nat, funcs: map<nat, L>)

  type Registry<L> = map<string, Entry<L>>

  /** The unsubscribe closure `listen` returns, as the name and key it captured. */
  datatype Subscription = Subscription(name: string, key: nat)

  /** One call made by `dispatch`: which callback, with which argument. */
  datatype Invocation<L, A> = Invocation(listener: L, arg: A)

  /** Every live key of a topic was handed out before: it lies below `count`. */
  ghost predicate KeysIssued<L>(r: Registry<L>)
  {
    forall name, k :: name in r && k in r[name].funcs ==> k < r[name].count
  }

  /** The record of `name`, or the fresh record `listen` would create. */
  function EntryOf<L>(r: Registry<L>, name: string): Entry<L>
  {
    if name in r then r[name] else Entry(0, map[])
  }

  /** The key the next `listen` on `name` hands out. */
  function NextKey<L>(r: Registry<L>, name: string): nat
  {
    EntryOf(r, name).count
  }

  /** The registry after `listen(name, f)`. */
  function Listened<L>(r: Registry<L>, name: string, f: L): Registry<L>
  {
    var e := EntryOf(r, name);
    r[name := Entry(e.count + 1, e.funcs[e.count := f])]
  }

  /** The registry after calling the unsubscribe handle `s`. */
  function Unsubscribed<L>(r: Registry<L>, s: Subscription): (r': Registry<L>)
    requires s.name in r
    ensures r'.Keys == r.Keys
    ensures r'[s.name].count == r[s.name].count
    ensures s.key !in r'[s.name].funcs
  {
    r[s.name := r[s.name].(funcs := r[s.name].funcs - {s.key})]
  }

  /**
   * The live keys below `n`, in ascending order: the order in which a
   * `for ... in` loop visits the integer keys of a JavaScript object.
   */
  function KeysBelow<L>(funcs: map<nat, L>, n: nat): (ks: seq<nat>)
    ensures forall k :: k in ks <==> k in funcs && k < n
    ensures forall i, j :: 0 <= i < j < |ks| ==> ks[i] < ks[j]
  {
    if n == 0 then []
    else
      var prefix := KeysBelow(funcs, n - 1);
      assert forall i :: 0 <= i < |prefix| ==> prefix[i] < n - 1 by {
        forall i | 0 <= i < |prefix| ensures prefix[i] < n - 1 {
          assert prefix[i] in prefix;
        }
      }
      prefix + (if n - 1 in funcs then [n - 1] else [])
  }

  /** The keys `dispatch` visits for a topic record, in visiting order. */
  function DispatchOrder<L>(e: Entry<L>): seq<nat>
  {
    KeysBelow(e.funcs, e.count)
  }

  /** The first `listen` on an unseen name creates its record and issues key 0. */
  lemma ListenOnUnseenName<L>(r: Registry<L>, name: string, f: L)
    requires name !in r
    ensures NextKey(r, name) == 0
    ensures Listened(r, name, f)[name] == Entry(1, map[0 := f])
  {
  }

  /**
   * `listen` raises the name's count by exactly one, issues a key above every
   * live key, stores the callback under it, and touches no other name.
   */
  lemma ListenIssuesFreshKey<L>(r: Registry<L>, name: string, f: L)
    requires KeysIssued(r)
    ensures var r' := Listened(r, name, f);
      && KeysIssued(r')
      && r'[name].count == EntryOf(r, name).count + 1
      && (forall k :: k in EntryOf(r, name).funcs ==> k < NextKey(r, name))
      && r'[name].funcs == EntryOf(r, name).funcs[NextKey(r, name) := f]
      && (forall n :: n in r && n != name ==> n in r' && r'[n] == r[n])
      && r'.Keys == r.Keys + {name}
  {
  }

  /**
   * Unsubscribing removes only its own key: the count, the other keys of the
   * name and every other name are unchanged.
   */
  lemma UnsubscribeIsLocal<L>(r: Registry<L>, s: Subscription)
    requires s.name in r
    ensures var r' := Unsubscribed(r, s);
      && r'.Keys == r.Keys
      && r'[s.name].count == r[s.name].count
      && s.key !in r'[s.name].funcs
      && (forall k :: k in r'[s.name].funcs <==> k in r[s.name].funcs && k != s.key)
      && (forall k :: k in r'[s.name].funcs ==> r'[s.name].funcs[k] == r[s.name].funcs[k])
      && (forall n :: n in r && n != s.name ==> r'[n] == r[n])
  {
  }

  /** A second call of the same unsubscribe handle leaves the registry unchanged. */
  lemma UnsubscribeIdempotent<L>(r: Registry<L>, s: Subscription)
    requires s.name in r
    ensures s.name in Unsubscribed(r, s)
    ensures Unsubscribed(Unsubscribed(r, s), s) == Unsubscribed(r, s)
  {
    var once := Unsubscribed(r, s);
    assert once[s.name].funcs - {s.key} == once[s.name].funcs;
  }

  /**
   * With every live key below the count, `dispatch` visits exactly the live
   * keys, each once, in strictly ascending order.
   */
  lemma DispatchVisitsLiveKeys<L>(r: Registry<L>, name: string)
    requires KeysIssued(r) && name in r
    ensures forall k :: k in DispatchOrder(r[name]) <==> k in r[name].funcs
    ensures var ks := DispatchOrder(r[name]);
      forall i, j :: 0 <= i < j < |ks| ==> ks[i] < ks[j]
  {
  }

  /** One registry mutation: a `listen` call or an unsubscribe call. */
  datatype Op<L> = ListenOp(name: string, f: L) | UnsubscribeOp(sub: Subscription)

  /**
   * Applies one mutation. A handle always names a topic that exists, because
   * `listen` created it and no operation removes a topic (TopicsPersist); the
   * absent case is a no-op only so that the function is total.
   */
  function Apply<L>(r: Registry<L>, op: Op<L>): Registry<L>
  {
    match op
    case ListenOp(name, f) => Listened(r, name, f)
    case UnsubscribeOp(s) => if s.name in r then Unsubscribed(r, s) else r
  }

  function Run<L>(r: Registry<L>, ops: seq<Op<L>>): Registry<L>
    decreases |ops|
  {
    if ops == [] then r else Run(Apply(r, ops[0]), ops[1..])
  }

  /**
   * Keys are never reused: along any sequence of listens and unsubscribes no
   * topic disappears, no count goes down, and every live key stays below its
   * count. So a key issued before the sequence is below every key issued after it.
   */
  lemma {:induction false} TopicsPersist<L>(r: Registry<L>, ops: seq<Op<L>>)
    requires KeysIssued(r)
    ensures KeysIssued(Run(r, ops))
    ensures forall n :: n in r ==> n in Run(r, ops) && r[n].count <= Run(r, ops)[n].count
    decreases |ops|
  {
    if ops != [] {
      var r1 := Apply(r, ops[0]);
      match ops[0] {
        case ListenOp(name, f) => ListenIssuesFreshKey(r, name, f);
        case UnsubscribeOp(s) => if s.name in r { UnsubscribeIsLocal(r, s); }
      }
      TopicsPersist(r1, ops[1..]);
    }
  }

  /** The key of a subscription issued earlier is below any key issued later. */
  lemma {:induction false} KeysNeverReused<L>(r: Registry<L>, name: string, f: L, ops: seq<Op<L>>)
    requires KeysIssued(r)
    ensures var after := Run(Listened(r, name, f), ops);
      NextKey(r, name) < NextKey(after, name)
  {
    ListenIssuesFreshKey(r, name, f);
    TopicsPersist(Listened(r, name, f), ops);
  }

  /**
   * The registry after calling, in order, each unsubscribe handle that is
   * set (a component's guarded teardown). Unsubscribing keeps every topic,
   * adds no listener anywhere, and removes the listener of every set handle.
   */
  function UnsubscribedAll<L>(r: Registry<L>, subs: seq<Option<Subscription>>): (r': Registry<L>)
    requires forall i :: 0 <= i < |subs| && subs[i].Some? ==> subs[i].value.name in r
    ensures r'.Keys == r.Keys
    ensures KeysIssued(r) ==> KeysIssued(r')
    ensures forall n :: n in r ==> r'[n].funcs.Keys <= r[n].funcs.Keys
    ensures forall i :: 0 <= i < |subs| && subs[i].Some? ==> subs[i].value.key !in r'[subs[i].value.name].funcs
    decreases |subs|
  {
    if subs == [] then r
    else
      var r1 := match subs[0] case Some(s) => Unsubscribed(r, s) case None => r;
      assert forall i :: 1 <= i < |subs| ==> subs[1..][i - 1] == subs[i];
      UnsubscribedAll(r1, subs[1..])
  }

  /** `UnsubscribedAll` over four handles, one after another. */
  lemma UnsubscribedAllFour<L>(r: Registry<L>, a: Option<Subscription>, b: Option<Subscription>,
                               c: Option<Subscription>, d: Option<Subscription>)
    requires forall s :: s in [a, b, c, d] && s.Some? ==> s.value.name in r
    ensures var ra := if a.Some? then Unsubscribed(r, a.value) else r;
            var rb := if b.Some? then Unsubscribed(ra, b.value) else ra;
            var rc := if c.Some? then Unsubscribed(rb, c.value) else rb;
            var rd := if d.Some? then Unsubscribed(rc, d.value) else rc;
            UnsubscribedAll(r, [a, b, c, d]) == rd
  {
    var ra := if a.Some? then Unsubscribed(r, a.value) else r;
    var rb := if b.Some? then Unsubscribed(ra, b.value) else ra;
    var rc := if c.Some? then Unsubscribed(rb, c.value) else rb;
    var rd := if d.Some? then Unsubscribed(rc, d.value) else rc;
    assert [a, b, c, d][1..] == [b, c, d] && [b, c, d][1..] == [c, d] && [c, d][1..] == [d] && [d][1..] == [];
    assert UnsubscribedAll(rd, []) == rd;
    assert UnsubscribedAll(rc, [d]) == rd;
    assert UnsubscribedAll(rb, [c, d]) == rd;
    assert UnsubscribedAll(ra, [b, c, d]) == rd;
  }

  /** The registry object shared by every component of the process. */
  class Bus<L> {
    var events: Registry<L>

    ghost predicate Valid()
      reads this
    {
      KeysIssued(events)
    }

    constructor ()
      ensures Valid() && events == map[]
    {
      events := map[];
    }

    /** `listen`: store `f` under a fresh key and return its unsubscribe handle. */
    method Listen(name: string, f: L) returns (sub: Subscription)
      requires Valid()
      modifies this
      ensures Valid()
      ensures events == Listened(old(events), name, f)
      ensures sub == Subscription(name, NextKey(old(events), name))
    {
      ListenIssuesFreshKey(events, name, f);
      if name !in events {
        events := events[name := Entry(0, map[])];
      }
      var key := events[name].count;
      events := events[name := events[name].(count := key + 1)];
      events := events[name := events[name].(funcs := events[name].funcs[key := f])];
      sub := Subscription(name, key);
    }

    /** The unsubscribe closure: delete exactly the captured key. */
    method Unsubscribe(sub: Subscription)
      requires Valid() && sub.name in events
      modifies this
      ensures Valid()
      ensures events == Unsubscribed(old(events), sub)
      ensures events.Keys == old(events).Keys
    {
      events := events[sub.name := events[sub.name].(funcs := events[sub.name].funcs - {sub.key})];
    }

    /**
     * `dispatch`: the calls made, in order. Nothing for an unknown name;
     * otherwise one call per visited key, in ascending key order, each with
     * the same argument. The registry itself is not changed.
     */
    method Dispatch<A>(name: string, arg: A) returns (calls: seq<Invocation<L, A>>)
      ensures name !in events ==> calls == []
      ensures name in events ==>
        var e := events[name];
        var ks := DispatchOrder(e);
        && |calls| == |ks|
        && forall i :: 0 <= i < |calls| ==> calls[i] == Invocation(e.funcs[ks[i]], arg)
    {
      calls := [];
      if name in events {
        var e := events[name];
        var key := 0;
        while key < e.count
          invariant key <= e.count
          invariant |calls| == |KeysBelow(e.funcs, key)|
          invariant forall i :: 0 <= i < |calls| ==>
            calls[i] == Invocation(e.funcs[KeysBelow(e.funcs, key)[i]], arg)
        {
          if key in e.funcs {
            calls := calls + [Invocation(e.funcs[key], arg)];
          }
          key := key + 1;
        }
      }
    }
  }
}
