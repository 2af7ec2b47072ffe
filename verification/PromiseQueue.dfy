/**
 The promise-tail queue used for downloads, publications, cache saves, database writes and
 credential writes: a new operation is chained to the last one of its key, whether that fails or not.
 The per-host variant forgets its tail when the last operation has settled.
 */
module PromiseQueue {
  import opened Options

  datatype Status = Pending | Running | Settled

  /** One queued operation and the promise it was chained to. */
  datatype Link = Link(key: string, prev: Option<nat>, status: Status)

  /** All links in call order, and the last link of every key that is still remembered. */
  datatype State = State(links: seq<Link>, tails: map<string, nat>)

  function Empty(): State { State([], map[]) }

  function Chained(s: State, key: string): State {
    State(s.links + [Link(key, if key in s.tails then Some(s.tails[key]) else None, Pending)],
          s.tails[key := |s.links|])
  }

  /** An operation may run once the one it was chained to has settled, well or badly. */
  predicate Ready(s: State, i: nat) {
    && i < |s.links| && s.links[i].status.Pending?
    && (s.links[i].prev.Some? ==> s.links[i].prev.value < |s.links| && s.links[s.links[i].prev.value].status.Settled?)
  }

  function WithStatus(s: State, i: nat, status: Status): State
    requires i < |s.links|
  {
    s.(links := s.links[i := s.links[i].(status := status)])
  }

  /** The tail is forgotten, but only if nothing was chained after it. */
  function Forgotten(s: State, i: nat): State
    requires i < |s.links|
  {
    s.(tails := if s.links[i].key in s.tails && s.tails[s.links[i].key] == i then s.tails - {s.links[i].key} else s.tails)
  }

  datatype Event = Chain(key: string) | Start(i: nat) | Settle(i: nat) | Forget(i: nat)

  predicate Enabled(s: State, e: Event) {
    match e
    case Chain(_) => true
    case Start(i) => Ready(s, i)
    case Settle(i) => i < |s.links| && s.links[i].status.Running?
    case Forget(i) => i < |s.links| && s.links[i].status.Settled?
  }

  function Apply(s: State, e: Event): State
    requires Enabled(s, e)
  {
    match e
    case Chain(key) => Chained(s, key)
    case Start(i) => WithStatus(s, i, Running)
    case Settle(i) => WithStatus(s, i, Settled)
    case Forget(i) => Forgotten(s, i)
  }

  predicate SettledBefore(s: State, i: nat)
    requires i < |s.links|
  {
    forall j :: 0 <= j < i && s.links[j].key == s.links[i].key ==> s.links[j].status.Settled?
  }

  /** `i` is the last link of `key` among the first `n`. */
  predicate LastBefore(s: State, key: string, i: nat, n: nat)
    requires i < n <= |s.links|
  {
    s.links[i].key == key && forall j :: i < j < n ==> s.links[j].key != key
  }

  predicate LinkOk(s: State, i: nat)
    requires i < |s.links|
  {
    var l := s.links[i];
    && (l.prev.Some? ==> l.prev.value < i && LastBefore(s, l.key, l.prev.value, i))
    && (l.prev.None? ==> SettledBefore(s, i))
    && (!l.status.Pending? ==> SettledBefore(s, i))
  }

  ghost predicate Inv(s: State) {
    && (forall i :: 0 <= i < |s.links| ==> LinkOk(s, i))
    && (forall k :: k in s.tails ==> s.tails[k] < |s.links| && LastBefore(s, k, s.tails[k], |s.links|))
    && (forall i :: 0 <= i < |s.links| && s.links[i].key !in s.tails ==> s.links[i].status.Settled?)
  }

  lemma KeepsChain(s: State, key: string)
    requires Inv(s)
    ensures Inv(Chained(s, key))
  {
    var t := Chained(s, key);
    forall i | 0 <= i < |t.links|
      ensures LinkOk(t, i)
    {
      if i < |s.links| { assert LinkOk(s, i); }
    }
  }

  lemma KeepsStatus(s: State, i: nat, status: Status)
    requires Inv(s) && i < |s.links| && !s.links[i].status.Settled? && !status.Pending?
    requires SettledBefore(s, i)
    ensures Inv(WithStatus(s, i, status))
  {
    var t := WithStatus(s, i, status);
    forall j | 0 <= j < |t.links|
      ensures LinkOk(t, j)
    {
      assert LinkOk(s, j);
    }
  }

  lemma KeepsForget(s: State, i: nat)
    requires Inv(s) && i < |s.links| && s.links[i].status.Settled?
    ensures Inv(Forgotten(s, i))
  {
    var t := Forgotten(s, i);
    forall j | 0 <= j < |t.links|
      ensures LinkOk(t, j)
    {
      assert LinkOk(s, j);
    }
    if t.tails != s.tails {
      forall j | 0 <= j < |s.links| && s.links[j].key == s.links[i].key
        ensures s.links[j].status.Settled?
      {
        assert LinkOk(s, i);
      }
    }
  }

  lemma KeepsStep(s: State, e: Event)
    requires Inv(s) && Enabled(s, e)
    ensures Inv(Apply(s, e))
  {
    match e
    case Chain(key) => KeepsChain(s, key);
    case Start(i) => ReadyMeansFirst(s, i); KeepsStatus(s, i, Running);
    case Settle(i) => assert LinkOk(s, i); KeepsStatus(s, i, Settled);
    case Forget(i) => KeepsForget(s, i);
  }

  /**
   The chain is a first-in first-out queue per key: an operation may start exactly when every operation
   of its key called before it has settled, even though tails are forgotten in between.
   */
  lemma ReadyMeansFirst(s: State, i: nat)
    requires Inv(s) && i < |s.links| && s.links[i].status.Pending?
    ensures Ready(s, i) <==> SettledBefore(s, i)
  {
    assert LinkOk(s, i);
    if Ready(s, i) && s.links[i].prev.Some? {
      assert LinkOk(s, s.links[i].prev.value);
    }
  }

  ghost predicate Run(s: State, events: seq<Event>)
    decreases |events|
  {
    events == [] || (Enabled(s, events[0]) && Run(Apply(s, events[0]), events[1..]))
  }

  ghost function End(s: State, events: seq<Event>): State
    requires Run(s, events)
    decreases |events|
  {
    if events == [] then s else End(Apply(s, events[0]), events[1..])
  }

  lemma {:induction false} RunKeeps(s: State, events: seq<Event>)
    requires Inv(s) && Run(s, events)
    ensures Inv(End(s, events))
    decreases |events|
  {
    if events != [] {
      KeepsStep(s, events[0]);
      RunKeeps(Apply(s, events[0]), events[1..]);
    }
  }

  /** Operations of one key start in call order and never overlap, in every run. */
  lemma NeverOverlap(events: seq<Event>, i: nat, j: nat)
    requires Run(Empty(), events)
    requires var s := End(Empty(), events);
      i < j < |s.links| && s.links[i].key == s.links[j].key && !s.links[j].status.Pending?
    ensures End(Empty(), events).links[i].status.Settled?
  {
    RunKeeps(Empty(), events);
    assert LinkOk(End(Empty(), events), j);
  }

  lemma {:induction false} KeysStay(s: State, events: seq<Event>)
    requires Run(s, events)
    ensures |s.links| <= |End(s, events).links| && forall i :: 0 <= i < |s.links| ==> End(s, events).links[i].key == s.links[i].key
    decreases |events|
  {
    if events != [] { KeysStay(Apply(s, events[0]), events[1..]); }
  }

  predicate IsLast(s: State, i: nat) { i < |s.links| && LastBefore(s, s.links[i].key, i, |s.links|) }

  /** Only the forgetting of the last link of its key takes the key away. */
  lemma StepRemembers(s: State, e: Event, i: nat)
    requires Inv(s) && Enabled(s, e) && IsLast(Apply(s, e), i)
    ensures
      var t := Apply(s, e);
      t.links[i].key in t.tails <==> (i < |s.links| ==> t.links[i].key in s.tails) && e != Event.Forget(i)
  {
    var t := Apply(s, e);
    if e.Chain? && i < |s.links| { assert t.links[|s.links|].key == e.key; }
    if i < |s.links| && t.links[i].key in s.tails {
      var last := s.tails[t.links[i].key];
      assert s.links[last].key == s.links[i].key && t.links[last].key == t.links[i].key;
      assert last == i;
    }
  }

  lemma {:induction false} RunRemembers(s: State, events: seq<Event>, i: nat)
    requires Inv(s) && Run(s, events) && IsLast(End(s, events), i)
    ensures
      var t := End(s, events);
      t.links[i].key in t.tails <==> (i < |s.links| ==> t.links[i].key in s.tails) && Event.Forget(i) !in events
    decreases |events|
  {
    if events != [] {
      var u := Apply(s, events[0]);
      KeepsStep(s, events[0]);
      KeysStay(u, events[1..]);
      RunRemembers(u, events[1..], i);
      if i < |u.links| { StepRemembers(s, events[0], i); }
      assert events == [events[0]] + events[1..];
    }
  }

  /** In every run a key is still remembered if and only if the last of its operations has not been forgotten. */
  lemma RememberedExactly(events: seq<Event>, i: nat)
    requires Run(Empty(), events) && IsLast(End(Empty(), events), i)
    ensures End(Empty(), events).links[i].key in End(Empty(), events).tails <==> Event.Forget(i) !in events
  {
    RunRemembers(Empty(), events, i);
  }

  /** The module variables behind the queue. */
  class SerialQueue {
    var links: seq<Link>
    var tails: map<string, nat>

    ghost function View(): State
      reads this
    {
      State(links, tails)
    }

    ghost predicate Valid()
      reads this
    {
      Inv(View())
    }

    constructor ()
      ensures Valid() && View() == Empty()
    {
      links, tails := [], map[];
    }

    method Serialize(key: string) returns (i: nat)
      requires Valid()
      modifies this
      ensures Valid() && View() == Chained(old(View()), key) && i == |old(links)|
    {
      KeepsStep(View(), Chain(key));
      i := |links|;
      var pending := Link(key, if key in tails then Some(tails[key]) else None, Pending);
      links := links + [pending];
      tails := tails[key := i];
    }

    method Begin(i: nat)
      requires Valid() && Ready(View(), i)
      modifies this`links
      ensures Valid() && View() == WithStatus(old(View()), i, Running)
      ensures SettledBefore(View(), i)
    {
      KeepsStep(View(), Start(i));
      ReadyMeansFirst(View(), i);
      links := links[i := links[i].(status := Running)];
    }

    method Finish(i: nat)
      requires Valid() && i < |links| && links[i].status.Running?
      modifies this`links
      ensures Valid() && View() == WithStatus(old(View()), i, Settled)
    {
      KeepsStep(View(), Settle(i));
      links := links[i := links[i].(status := Settled)];
    }

    /** The clean-up that runs some time after the operation settled. */
    method Forget(i: nat)
      requires Valid() && i < |links| && links[i].status.Settled?
      modifies this`tails
      ensures Valid() && View() == Forgotten(old(View()), i)
    {
      KeepsStep(View(), Event.Forget(i));
      if links[i].key in tails && tails[links[i].key] == i {
        tails := tails - {links[i].key};
      }
    }
  }
}
