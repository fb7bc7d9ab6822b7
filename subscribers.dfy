/** The subscriber registry every agent keeps (`subscribers: Vec<HandlerId>`)
    and the loop with which an agent answers all of them
    (`for sub in self.subscribers.iter() { self.link.respond(*sub, output.clone()) }`).
    The agents differ in how they register a subscriber, so both the
    set-like and the plain push are here; they share the removal, which
    finds the id with `iter().position` and takes it out with `swap_remove`. */
module Subscribers {
  import opened Wrappers

  /** Yew's `HandlerId`: an opaque identifier of one bridge to an agent. */
  type HandlerId = nat

  predicate NoDuplicates(s: seq<HandlerId>) {
    forall i, j | 0 <= i < j < |s| :: s[i] != s[j]
  }

  // ---------------------------------------------------------------------------
  // Registration and removal
  // ---------------------------------------------------------------------------

  /** `iter().position(|x| *x == id)`: the first index holding `id`, if any. */
  function Position(s: seq<HandlerId>, id: HandlerId): (r: Option<nat>)
    ensures r.None? <==> id !in s
    ensures r.Some? ==> r.value < |s| && s[r.value] == id
    ensures r.Some? ==> forall j | 0 <= j < r.value :: s[j] != id
  {
    if |s| == 0 then None
    else if s[0] == id then Some(0)
    else
      match Position(s[1..], id)
      case None => assert s == [s[0]] + s[1..]; None
      case Some(k) => Some(k + 1)
  }

  /** `Vec::swap_remove(i)`: the element at `i` is replaced by the last one,
      and the vector is one shorter. Nothing else moves. */
  function SwapRemove(s: seq<HandlerId>, i: nat): (r: seq<HandlerId>)
    requires i < |s|
    ensures |r| == |s| - 1
    ensures forall j | 0 <= j < |r| && j != i :: r[j] == s[j]
    ensures i < |r| ==> r[i] == s[|s| - 1]
    ensures multiset(r) == multiset(s) - multiset{s[i]}
  {
    var last := |s| - 1;
    assert s == s[..last] + [s[last]];
    if i == last then s[..last] else s[..last][i := s[last]]
  }

  /** What `disconnected` leaves: the first occurrence of `id` swap-removed,
      or the list unchanged when `id` is not registered. */
  function Remove(s: seq<HandlerId>, id: HandlerId): (r: seq<HandlerId>)
    ensures multiset(r) == multiset(s) - multiset{id}
    ensures id !in s ==> r == s
    ensures id in s ==> |r| == |s| - 1
  {
    match Position(s, id)
    case None => s
    case Some(p) => SwapRemove(s, p)
  }

  /** What the set-like `connected` leaves: `id` pushed at the end unless it
      is already registered. */
  function AddIfAbsent(s: seq<HandlerId>, id: HandlerId): (r: seq<HandlerId>)
    ensures id in r
    ensures forall x :: x in r <==> x in s || x == id
    ensures id in s ==> r == s
    ensures id !in s ==> r == s + [id]
  {
    if id in s then s else s + [id]
  }

  /** Registering with `AddIfAbsent` never creates a duplicate. */
  lemma AddIfAbsentNoDuplicates(s: seq<HandlerId>, id: HandlerId)
    requires NoDuplicates(s)
    ensures NoDuplicates(AddIfAbsent(s, id))
  {
  }

  /** Removing keeps a duplicate-free list duplicate-free, and the removed id
      is then no longer registered at all. */
  lemma RemoveNoDuplicates(s: seq<HandlerId>, id: HandlerId)
    requires NoDuplicates(s)
    ensures NoDuplicates(Remove(s, id))
    ensures id !in Remove(s, id)
  {
    var r := Remove(s, id);
    if id in s {
      var p := Position(s, id).value;
      forall i, j | 0 <= i < j < |r| ensures r[i] != r[j] {
        var si := if i == p then |s| - 1 else i;
        var sj := if j == p then |s| - 1 else j;
        assert r[i] == s[si] && r[j] == s[sj];
      }
      MultiplicityOfDistinct(s, id);
      assert multiset(r)[id] == 0;
    }
  }

  /** In a duplicate-free list an id occurs at most once. */
  lemma {:induction false} MultiplicityOfDistinct(s: seq<HandlerId>, id: HandlerId)
    requires NoDuplicates(s)
    ensures multiset(s)[id] == if id in s then 1 else 0
  {
    if s != [] {
      assert s == [s[0]] + s[1..];
      MultiplicityOfDistinct(s[1..], id);
      if s[0] == id {
        assert id !in s[1..];
      }
    }
  }

  // ---------------------------------------------------------------------------
  // Broadcasting
  // ---------------------------------------------------------------------------

  /** The `(subscriber, output)` pairs a broadcast hands to `link.respond`,
      in list order. */
  function Deliveries<M>(subs: seq<HandlerId>, msg: M): seq<(HandlerId, M)> {
    if subs == [] then [] else Deliveries(subs[..|subs| - 1], msg) + [(subs[|subs| - 1], msg)]
  }

  /** How many of `ds` are addressed to `id`. */
  function CountTo<M>(ds: seq<(HandlerId, M)>, id: HandlerId): nat {
    if ds == [] then 0 else CountTo(ds[..|ds| - 1], id) + (if ds[|ds| - 1].0 == id then 1 else 0)
  }

  /** The `i`-th delivery goes to the `i`-th subscriber, with the message itself. */
  lemma {:induction false} DeliveriesInOrder<M>(subs: seq<HandlerId>, msg: M, i: nat)
    requires i < |subs|
    ensures |Deliveries(subs, msg)| == |subs|
    ensures Deliveries(subs, msg)[i] == (subs[i], msg)
  {
    var n := |subs| - 1;
    DeliveriesLength(subs[..n], msg);
    if i < n {
      DeliveriesInOrder(subs[..n], msg, i);
    }
  }

  lemma {:induction false} DeliveriesLength<M>(subs: seq<HandlerId>, msg: M)
    ensures |Deliveries(subs, msg)| == |subs|
  {
    if subs != [] {
      DeliveriesLength(subs[..|subs| - 1], msg);
    }
  }

  /** Every id receives one delivery per registration: exactly its
      multiplicity in the list. */
  lemma {:induction false} DeliveriesCount<M>(subs: seq<HandlerId>, msg: M, id: HandlerId)
    ensures CountTo(Deliveries(subs, msg), id) == multiset(subs)[id]
  {
    if subs != [] {
      var n := |subs| - 1;
      CountToSnoc(Deliveries(subs[..n], msg), (subs[n], msg), id);
      DeliveriesCount(subs[..n], msg, id);
      assert subs == subs[..n] + [subs[n]];
    }
  }

  /** One more delivery adds one to its addressee's count. */
  lemma CountToSnoc<M>(ds: seq<(HandlerId, M)>, d: (HandlerId, M), id: HandlerId)
    ensures CountTo(ds + [d], id) == CountTo(ds, id) + (if d.0 == id then 1 else 0)
  {
    assert (ds + [d])[..|ds|] == ds;
  }

  /** With a duplicate-free registry, each registered subscriber receives a
      broadcast exactly once and nobody else receives it. */
  lemma DeliveredOnce<M>(subs: seq<HandlerId>, msg: M, id: HandlerId)
    requires NoDuplicates(subs)
    ensures CountTo(Deliveries(subs, msg), id) == if id in subs then 1 else 0
  {
    DeliveriesCount(subs, msg, id);
    MultiplicityOfDistinct(subs, id);
  }

  /** `broadcast_to_subscribers`: one `respond` per subscriber, in list order,
      each appended to the agent's outbox. */
  method Broadcast<M>(subs: seq<HandlerId>, msg: M, outbox: seq<(HandlerId, M)>)
    returns (r: seq<(HandlerId, M)>)
    ensures r == outbox + Deliveries(subs, msg)
  {
    r := outbox;
    var i := 0;
    while i < |subs|
      invariant 0 <= i <= |subs|
      invariant r == outbox + Deliveries(subs[..i], msg)
    {
      assert subs[..i + 1][..i] == subs[..i];
      r := r + [(subs[i], msg)];
      i := i + 1;
    }
    assert subs[..|subs|] == subs;
  }
}
