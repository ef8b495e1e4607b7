/** The SDL engine's event handler: a singly linked list of callback
    registrations, newest first. Registering prepends a node; dispatching
    walks the list and invokes the callback of every node registered for
    the event's type; destroying frees every node and then the handler.
    Callbacks and user data are opaque pointers, modelled as numbers, and
    an invocation is recorded rather than run. */
module EventHandling {

  /** SDL's `Uint32` event type. */
  type Uint32 = x: int | 0 <= x < 0x1_0000_0000

  /** What a node holds besides its link. */
  datatype Entry = Entry(eventType: Uint32, callback: nat, userData: nat)

  /** A `free` made by `event_handler_destroy`: a node, or the handler. */
  datatype Freed = FreedNode(node: Node) | FreedHandler

  /** `node->callback(event, node->user_data)`. */
  datatype Call = Call(callback: nat, userData: nat)

  /** `EventCallbackNode`: every field is set when the node is allocated
      and never written again. */
  class Node {
    const eventType: Uint32
    const callback: nat
    const userData: nat
    const next: Node?

    constructor (eventType: Uint32, callback: nat, userData: nat, next: Node?)
      ensures this.eventType == eventType && this.callback == callback && this.userData == userData
      ensures this.next == next
    {
      this.eventType, this.callback, this.userData, this.next := eventType, callback, userData, next;
    }

    function Contents(): Entry {
      Entry(eventType, callback, userData)
    }
  }

  /** The calls a dispatch of type `t` makes walking `entries` front to back. */
  function Dispatched(entries: seq<Entry>, t: Uint32): (calls: seq<Call>)
    ensures |calls| <= |entries|
    decreases |entries|
  {
    if entries == [] then []
    else
      var e := entries[|entries| - 1];
      Dispatched(entries[..|entries| - 1], t) + (if e.eventType == t then [Call(e.callback, e.userData)] else [])
  }

  function Reverse<T>(s: seq<T>): (r: seq<T>)
    ensures |r| == |s|
    decreases |s|
  {
    if s == [] then [] else [s[|s| - 1]] + Reverse(s[..|s| - 1])
  }

  lemma {:induction false} ReverseIndex<T>(s: seq<T>)
    ensures forall i :: 0 <= i < |s| ==> Reverse(s)[i] == s[|s| - 1 - i]
    decreases |s|
  {
    if s != [] {
      ReverseIndex(s[..|s| - 1]);
    }
  }

  lemma {:induction false} ReverseAppend<T>(a: seq<T>, b: seq<T>)
    ensures Reverse(a + b) == Reverse(b) + Reverse(a)
    decreases |b|
  {
    if b == [] {
      assert a + b == a;
    } else {
      assert (a + b)[..|a + b| - 1] == a + b[..|b| - 1];
      ReverseAppend(a, b[..|b| - 1]);
    }
  }

  /** Dispatching over a concatenation dispatches over each part in turn. */
  lemma {:induction false} DispatchedAppend(a: seq<Entry>, b: seq<Entry>, t: Uint32)
    ensures Dispatched(a + b, t) == Dispatched(a, t) + Dispatched(b, t)
    decreases |b|
  {
    if b == [] {
      assert a + b == a;
    } else {
      assert (a + b)[..|a + b| - 1] == a + b[..|b| - 1];
      DispatchedAppend(a, b[..|b| - 1], t);
    }
  }

  /** Walking a list built by prepending reaches the callbacks in reverse
      registration order. */
  lemma {:induction false} DispatchedReverse(regs: seq<Entry>, t: Uint32)
    ensures Dispatched(Reverse(regs), t) == Reverse(Dispatched(regs, t))
    decreases |regs|
  {
    if regs != [] {
      var init, last := regs[..|regs| - 1], regs[|regs| - 1];
      DispatchedReverse(init, t);
      DispatchedAppend([last], Reverse(init), t);
      assert [last][..0] == [];
      ReverseAppend(Dispatched(init, t), Dispatched([last], t));
      assert Reverse(Dispatched([last], t)) == Dispatched([last], t);
    }
  }

  /** Every registration for `t` yields one call per dispatch of `t`: a
      callback registered twice is invoked twice, and a registration for
      another type is never invoked. */
  lemma {:induction false} DispatchedCount(regs: seq<Entry>, t: Uint32, c: Call)
    ensures multiset(Dispatched(regs, t))[c] == multiset(regs)[Entry(t, c.callback, c.userData)]
    decreases |regs|
  {
    if regs != [] {
      var init := regs[..|regs| - 1];
      DispatchedCount(init, t, c);
      assert regs == init + [regs[|regs| - 1]];
    }
  }

  /** `EventHandler`: the list head and the `app` pointer. `nodes` is the
      list from `head` on, and `registered` the registrations in the order
      they were made. */
  class EventHandler {
    var head: Node?
    const app: nat
    ghost var nodes: seq<Node>
    ghost var registered: seq<Entry>

    /** The list from `head` is `nodes`, ends in NULL, has no node twice,
        and holds the registrations newest first. */
    ghost predicate Valid()
      reads this
    {
      |nodes| == |registered| &&
      (head == null <==> nodes == []) && (nodes != [] ==> head == nodes[0]) &&
      (forall i :: 0 <= i < |nodes| - 1 ==> nodes[i].next == nodes[i + 1]) &&
      (nodes != [] ==> nodes[|nodes| - 1].next == null) &&
      (forall i, j :: 0 <= i < j < |nodes| ==> nodes[i] != nodes[j]) &&
      (forall i :: 0 <= i < |nodes| ==> nodes[i].Contents() == registered[|registered| - 1 - i])
    }

    /** The entries of the list, in list order. */
    ghost function Entries(): (es: seq<Entry>)
      reads this
      requires Valid()
      ensures es == Reverse(registered)
    {
      ReverseIndex(registered);
      seq(|nodes|, i requires 0 <= i < |nodes| reads this => nodes[i].Contents())
    }

    /** `event_handler_create`: an empty list and the given `app`. */
    constructor (app: nat)
      ensures Valid() && head == null && this.app == app && registered == []
    {
      head := null;
      this.app := app;
      nodes, registered := [], [];
    }

    /** `event_handler_register`: a new node for the registration becomes
        the head; the nodes already in the list stay, in the same order. */
    method Register(eventType: Uint32, callback: nat, userData: nat)
      requires Valid()
      modifies this
      ensures Valid()
      ensures registered == old(registered) + [Entry(eventType, callback, userData)]
      ensures head != null && fresh(head) && nodes == [head] + old(nodes)
      ensures head.Contents() == Entry(eventType, callback, userData) && head.next == old(head)
    {
      var node := new Node(eventType, callback, userData, head);
      head := node;
      nodes := [node] + nodes;
      registered := registered + [node.Contents()];
    }

    /** `event_handler_dispatch`: the callbacks of exactly the nodes
        registered for `eventType`, newest registration first. The list
        is not changed. */
    method Dispatch(eventType: Uint32) returns (calls: seq<Call>)
      requires Valid()
      ensures calls == Dispatched(Entries(), eventType)
      ensures calls == Reverse(Dispatched(registered, eventType))
    {
      ghost var entries := Entries();
      calls := [];
      var node := head;
      ghost var i := 0;
      while node != null
        invariant 0 <= i <= |nodes|
        invariant node == (if i < |nodes| then nodes[i] else null)
        invariant calls == Dispatched(entries[..i], eventType)
        decreases |nodes| - i
      {
        assert entries[..i + 1][..i] == entries[..i];
        if node.eventType == eventType {
          calls := calls + [Call(node.callback, node.userData)];
        }
        node := node.next;
        i := i + 1;
      }
      assert entries[..i] == entries;
      DispatchedReverse(registered, eventType);
    }

    /** `event_handler_destroy`: what it frees, in order. Every node of the
        list is freed front to back, none twice, and the handler itself
        last. */
    method Destroy() returns (freed: seq<Freed>)
      requires Valid()
      ensures |freed| == |nodes| + 1 && |nodes| == |registered|
      ensures forall i :: 0 <= i < |nodes| ==> freed[i] == FreedNode(nodes[i])
      ensures freed[|nodes|] == FreedHandler
      ensures forall i, j :: 0 <= i < j < |freed| ==> freed[i] != freed[j]
    {
      freed := [];
      var node := head;
      ghost var i := 0;
      while node != null
        invariant 0 <= i <= |nodes|
        invariant node == (if i < |nodes| then nodes[i] else null)
        invariant |freed| == i && forall k :: 0 <= k < i ==> freed[k] == FreedNode(nodes[k])
        decreases |nodes| - i
      {
        var next := node.next;
        freed := freed + [FreedNode(node)];
        node := next;
        i := i + 1;
      }
      freed := freed + [FreedHandler];
    }
  }
}
