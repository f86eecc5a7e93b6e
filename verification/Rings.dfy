/** The intrusive circular lists (list_head.h) and the two places that depend on their pointers. */
module Rings {

  class ListHead {
    var next: ListHead
    var prev: ListHead

    constructor ()
      ensures next == this && prev == this
    {
      next, prev := this, this;
    }
  }

  ghost predicate Distinct(s: seq<ListHead>) {
    forall i, j :: 0 <= i < j < |s| ==> s[i] != s[j]
  }

  // `a` points forward to `b`, and `b` back to `a`.
  ghost predicate Joined(a: ListHead, b: ListHead)
    reads a, b
  {
    a.next == b && b.prev == a
  }

  // Walking `next` from s[0] visits s and returns to s[0]; `prev` is its inverse.
  ghost predicate Ring(s: seq<ListHead>)
    reads s
  {
    && s != [] && Distinct(s)
    && (forall i :: 0 < i < |s| ==> Joined(s[i - 1], s[i]))
    && Joined(s[|s| - 1], s[0])
  }

  method Init(h: ListHead)
    modifies h
    ensures Ring([h])
  {
    h.next, h.prev := h, h;
  }

  method Empty(h: ListHead, ghost s: seq<ListHead>) returns (empty: bool)
    requires Ring([h] + s)
    ensures empty <==> s == []
  {
    empty := h.next == h;
    assert s != [] ==> Joined(([h] + s)[0], ([h] + s)[1]) && ([h] + s)[1] == s[0];
  }

  // Splices n between two neighbours of a ring: after its last element, before its first.
  method Splice(n: ListHead, prev: ListHead, next: ListHead, ghost s: seq<ListHead>)
    requires Ring(s) && n !in s && prev == s[|s| - 1] && next == s[0]
    modifies n, prev, next
    ensures Ring(s + [n])
  {
    next.prev := n;
    n.next := next;
    n.prev := prev;
    prev.next := n;
  }

  // The same ring, entered one element later.
  lemma Turn(s: seq<ListHead>)
    requires Ring(s)
    ensures Ring(s[1..] + [s[0]])
  {
    var t := s[1..] + [s[0]];
    forall i | 0 < i < |t|
      ensures Joined(t[i - 1], t[i])
    {
      if i < |s| - 1 {
        assert Joined(s[i], s[i + 1]);
      }
    }
    if |s| > 1 {
      assert Joined(s[0], s[1]);
    }
  }

  lemma TurnBack(s: seq<ListHead>)
    requires Ring(s)
    ensures Ring([s[|s| - 1]] + s[..|s| - 1])
  {
    var t := [s[|s| - 1]] + s[..|s| - 1];
    forall i | 0 < i < |t|
      ensures Joined(t[i - 1], t[i])
    {
      if i > 1 {
        assert Joined(s[i - 2], s[i - 1]);
      }
    }
    if |s| > 1 {
      assert Joined(s[|s| - 2], s[|s| - 1]);
    }
  }

  // `list_add_tail`: behind everything in the list of h.
  method AddTail(n: ListHead, h: ListHead, ghost s: seq<ListHead>)
    requires Ring([h] + s) && n !in [h] + s
    modifies n, h, h.prev
    ensures Ring([h] + s + [n])
  {
    Splice(n, h.prev, h, [h] + s);
  }

  // `list_add`: in front of everything in the list of h.
  method Add(n: ListHead, h: ListHead, ghost s: seq<ListHead>)
    requires Ring([h] + s) && n !in [h] + s
    modifies n, h, h.next
    ensures Ring([h] + ([n] + s))
  {
    HeadLast(h, s);
    if s != [] {
      assert Joined(([h] + s)[0], ([h] + s)[1]);
    }
    Splice(n, h, h.next, s + [h]);
    TurnBack(s + [h] + [n]);
    assert [n] + (s + [h] + [n])[..|s| + 1] == [n] + s + [h];
    HeadFirst(h, [n] + s);
  }

  // `list_del`: the others close the ring; the entry keeps its stale pointers.
  method Del(e: ListHead, ghost s: seq<ListHead>)
    requires Ring(s + [e])
    modifies e.prev, e.next
    ensures s == [] ==> Ring([e])
    ensures s != [] ==> Ring(s) && e.prev == s[|s| - 1] && e.next == s[0]
  {
    var next, prev := e.next, e.prev;
    if s != [] {
      assert Joined((s + [e])[|s| - 1], (s + [e])[|s|]);
    }
    next.prev := prev;
    prev.next := next;
    assert forall i | 0 <= i < |s| :: (s + [e])[i] == s[i];
    forall i | 0 < i < |s|
      ensures Joined(s[i - 1], s[i])
    {
      assert old(Joined((s + [e])[i - 1], (s + [e])[i]));
    }
  }

  lemma NextOfHead(h: ListHead, s: seq<ListHead>)
    requires Ring([h] + s)
    ensures h.next == if s == [] then h else s[0]
  {
    if s != [] {
      assert Joined(([h] + s)[0], ([h] + s)[1]);
    }
  }

  // The head of a list, seen as the element behind the last.
  lemma HeadLast(h: ListHead, s: seq<ListHead>)
    requires Ring([h] + s)
    ensures Ring(s + [h])
  {
    Turn([h] + s);
    assert ([h] + s)[1..] + [h] == s + [h];
  }

  lemma HeadFirst(h: ListHead, s: seq<ListHead>)
    requires Ring(s + [h])
    ensures Ring([h] + s)
  {
    TurnBack(s + [h]);
    assert [h] + (s + [h])[..|s|] == [h] + s;
  }

  lemma NoneTwice(h: ListHead, s: seq<ListHead>)
    requires Ring(s + [h])
    ensures h !in s
  {
    assert forall i | 0 <= i < |s| :: (s + [h])[i] == s[i];
  }

  // `front` of a waiting list.
  method Front(h: ListHead, ghost s: seq<ListHead>) returns (first: ListHead?)
    requires Ring([h] + s)
    ensures first == null <==> s == []
    ensures first != null ==> s == [first] + s[1..] && first != h
  {
    first := null;
    NextOfHead(h, s);
    var empty := Empty(h, s);
    if !empty {
      first := h.next;
      assert ([h] + s)[0] != ([h] + s)[1];
    }
  }

  // `pop_front` of a waiting list: the head's next is cut out, if there is one.
  method PopFront(h: ListHead, ghost s: seq<ListHead>)
    requires Ring([h] + s)
    modifies h, s
    ensures Ring([h] + if s == [] then [] else s[1..])
  {
    var empty := Empty(h, s);
    if !empty {
      NextOfHead(h, s);
      Turn([h] + s);
      assert ([h] + s)[1..] + [h] == s + [h];
      Turn(s + [h]);
      assert (s + [h])[1..] + [s[0]] == (s[1..] + [h]) + [s[0]];
      EndsIn(s[1..] + [h], s[0]);
      Del(h.next, s[1..] + [h]);
      HeadFirst(h, s[1..]);
    }
  }

  lemma EndsIn(s: seq<ListHead>, e: ListHead)
    requires s != [] && Ring(s + [e])
    ensures e.prev in s && e.next in s
  {
    assert Joined((s + [e])[|s| - 1], (s + [e])[|s|]);
  }

  // `pop_all` of a waiting list: the old head is cut out and restarted, and the new head is put in its place.
  method MoveAll(from: ListHead, head: ListHead, ghost s: seq<ListHead>)
    requires Ring([from] + s) && Ring([head]) && head !in [from] + s
    modifies from, head, s
    ensures Ring([from]) && Ring([head] + s)
  {
    var empty := Empty(from, s);
    if empty {
      return;
    }
    var first := from.next;
    NextOfHead(from, s);
    HeadLast(from, s);
    NoneTwice(from, s);
    Del(from, s);
    Init(from);
    assert s == [first] + s[1..];
    AddTail(head, first, s[1..]);
    HeadFirst(head, s);
  }

  // A ring through the same elements in the same order has the same pointers.
  twostate lemma SameRing(s: seq<ListHead>)
    requires old(Ring(s)) && Ring(s)
    ensures forall e <- s :: e.next == old(e.next) && e.prev == old(e.prev)
  {
    forall e <- s
      ensures e.next == old(e.next) && e.prev == old(e.prev)
    {
      var i :| 0 <= i < |s| && s[i] == e;
      var before, after := if i == 0 then |s| - 1 else i - 1, if i == |s| - 1 then 0 else i + 1;
      assert Joined(s[before], e) && Joined(e, s[after]);
      assert old(Joined(s[before], e)) && old(Joined(e, s[after]));
    }
  }

  // `get_token_grp` hangs a head of its own into the caller's resource ring and takes it out again:
  // every resource is pointed at as before.
  method BorrowRing(head: ListHead, rs: ListHead, ghost s: seq<ListHead>)
    requires Ring([rs] + s) && head !in [rs] + s
    modifies head, rs, s
    ensures Ring([rs] + s)
    ensures forall e <- [rs] + s :: e.next == old(e.next) && e.prev == old(e.prev)
  {
    NextOfHead(rs, s);
    Add(head, rs, s);
    TwoTurns(head, rs, s);
    Del(head, s + [rs]);
    HeadFirst(rs, s);
    SameRing([rs] + s);
  }

  lemma TwoTurns(head: ListHead, rs: ListHead, s: seq<ListHead>)
    requires Ring([rs] + ([head] + s))
    ensures Ring(s + [rs] + [head]) && head.next in s + [rs] && head.prev in s + [rs]
  {
    var t := [rs] + ([head] + s);
    Turn(t);
    assert t[1..] + [rs] == [head] + (s + [rs]);
    HeadLast(head, s + [rs]);
    assert Joined(t[0], t[1]);
    NextOfHead(head, s + [rs]);
  }
}
