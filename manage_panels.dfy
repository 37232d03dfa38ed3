/**
 * The panel manager: panels listed by order, rearranged by dragging one panel
 * over another, renumbered 1..n after every move, and submitted as
 * `{id, order}` pairs when the drag ends.
 */
module ManagePanels {
  import opened Wrappers
  import opened Wire
  import opened Domain
  import opened PanelOrder

  /** The sequence without position `k`. */
  function Without<T>(s: seq<T>, k: nat): seq<T>
    requires k < |s|
  {
    s[..k] + s[k + 1..]
  }

  /** `s.splice(to, 0, s.splice(from, 1)[0])`: the element at `from` is taken out and put back at `to`. */
  function Move<T>(s: seq<T>, from: nat, to: nat): (r: seq<T>)
    requires from < |s| && to < |s|
    ensures |r| == |s|
    ensures r[to] == s[from]
  {
    var rest := Without(s, from);
    rest[..to] + [s[from]] + rest[to..]
  }

  /** Every panel's order set to its position plus one. */
  function Renumber(s: seq<Panel>): (r: seq<Panel>)
    ensures |r| == |s|
    ensures forall i :: 0 <= i < |s| ==> r[i].order == Int(i + 1) && r[i].id == s[i].id
  {
    seq(|s|, i requires 0 <= i < |s| => s[i].(order := Int(i + 1)))
  }

  /** A move keeps the same elements. */
  lemma MoveIsPermutation<T>(s: seq<T>, from: nat, to: nat)
    requires from < |s| && to < |s|
    ensures |Move(s, from, to)| == |s|
    ensures multiset(Move(s, from, to)) == multiset(s)
  {
    var rest := Without(s, from);
    calc {
      multiset(s);
      { assert s == s[..from] + [s[from]] + s[from + 1..]; }
      multiset(s[..from]) + multiset{s[from]} + multiset(s[from + 1..]);
      multiset(rest) + multiset{s[from]};
      { assert rest == rest[..to] + rest[to..]; }
      multiset(rest[..to]) + multiset(rest[to..]) + multiset{s[from]};
      multiset(Move(s, from, to));
    }
  }

  /** The moved element lands at the target's former index, and the others keep their relative order. */
  lemma MoveLandsAtTarget<T>(s: seq<T>, from: nat, to: nat)
    requires from < |s| && to < |s|
    ensures Move(s, from, to)[to] == s[from]
    ensures Without(Move(s, from, to), to) == Without(s, from)
  {
    var rest := Without(s, from);
    var m := Move(s, from, to);
    assert m[..to] == rest[..to];
    assert m[to + 1..] == rest[to..];
  }

  /** Renumbering gives orders 1..n by position and changes nothing else. */
  lemma RenumberNumbersByPosition(s: seq<Panel>)
    ensures |Renumber(s)| == |s|
    ensures forall i :: 0 <= i < |s| ==> Renumber(s)[i].order == Int(i + 1)
    ensures forall i :: 0 <= i < |s| ==> Renumber(s)[i].(order := s[i].order) == s[i]
  {
  }

  /** The first index holding a panel with this id, or -1: `findIndex`. */
  function IndexOfId(s: seq<Panel>, id: string): (r: int)
    ensures -1 <= r < |s|
    ensures r >= 0 ==> s[r].id == id && forall k :: 0 <= k < r ==> s[k].id != id
    ensures r == -1 <==> forall k :: 0 <= k < |s| ==> s[k].id != id
  {
    if |s| == 0 then -1
    else if s[0].id == id then 0
    else
      var r := IndexOfId(s[1..], id);
      if r == -1 then -1 else r + 1
  }

  /** `p.id` of a panel somewhere in the list. */
  predicate Listed(s: seq<Panel>, id: string)
  {
    exists k :: 0 <= k < |s| && s[k].id == id
  }

  /** The list after a panel is dragged over another: the move, then the renumbering. */
  function Reordered(s: seq<Panel>, dragged: string, target: string): (r: seq<Panel>)
    requires Listed(s, dragged) && Listed(s, target)
    ensures |r| == |s|
    ensures r[IndexOfId(s, target)].id == dragged
    ensures forall i :: 0 <= i < |r| ==> r[i].order == Int(i + 1)
  {
    Renumber(Move(s, IndexOfId(s, dragged), IndexOfId(s, target)))
  }

  /** The panels with their order fields blanked: everything a reorder must keep. */
  function Unordered(s: seq<Panel>): seq<Panel>
  {
    seq(|s|, i requires 0 <= i < |s| => s[i].(order := NaN))
  }

  lemma UnorderedMove(s: seq<Panel>, from: nat, to: nat)
    requires from < |s| && to < |s|
    ensures Unordered(Move(s, from, to)) == Move(Unordered(s), from, to)
  {
    var m := Move(s, from, to);
    var u := Move(Unordered(s), from, to);
    forall i | 0 <= i < |s| ensures Unordered(m)[i] == u[i] {
      if i < to {
        assert m[i] == Without(s, from)[i] && u[i] == Without(Unordered(s), from)[i];
      } else if i > to {
        assert m[i] == Without(s, from)[i - 1] && u[i] == Without(Unordered(s), from)[i - 1];
      } else {
        assert m[i] == s[from] && u[i] == Unordered(s)[from];
      }
    }
  }

  /** Renumbering touches nothing but the order fields. */
  lemma UnorderedRenumber(s: seq<Panel>)
    ensures Unordered(Renumber(s)) == Unordered(s)
  {
    RenumberNumbersByPosition(s);
    forall i | 0 <= i < |s|
      ensures Unordered(Renumber(s))[i] == Unordered(s)[i]
    {
      assert Renumber(s)[i].(order := s[i].order) == s[i];
    }
  }

  /**
   * A drag-over rearranges the same panels: apart from their order fields they
   * are a permutation of the previous list, the dragged panel sits at the
   * target's former index, and all the others keep their relative order.
   */
  lemma {:induction false} ReorderedIsPermutation(s: seq<Panel>, dragged: string, target: string)
    requires Listed(s, dragged) && Listed(s, target)
    ensures var r := Reordered(s, dragged, target);
      var from := IndexOfId(s, dragged);
      var to := IndexOfId(s, target);
      && |r| == |s|
      && multiset(Unordered(r)) == multiset(Unordered(s))
      && r[to] == s[from].(order := Int(to + 1))
      && Without(Unordered(r), to) == Without(Unordered(s), from)
  {
    var from := IndexOfId(s, dragged);
    var to := IndexOfId(s, target);
    var m := Move(s, from, to);
    MoveIsPermutation(s, from, to);
    MoveLandsAtTarget(s, from, to);
    UnorderedRenumber(m);
    UnorderedMove(s, from, to);
    MoveIsPermutation(Unordered(s), from, to);
    MoveLandsAtTarget(Unordered(s), from, to);
  }

  /** One `{id, order}` pair per panel, in list order: the body of the reorder request. */
  function OrderRequest(s: seq<Panel>): (r: seq<(string, Number)>)
    ensures |r| == |s| && forall i :: 0 <= i < |s| ==> r[i] == (s[i].id, s[i].order)
  {
    seq(|s|, i requires 0 <= i < |s| => (s[i].id, s[i].order))
  }

  /** After any drag-over the submitted orders are 1..n by position. */
  lemma ReorderedRequestNumbersOneToN(s: seq<Panel>, dragged: string, target: string)
    requires Listed(s, dragged) && Listed(s, target)
    ensures var r := OrderRequest(Reordered(s, dragged, target));
      |r| == |s| && forall i :: 0 <= i < |r| ==> r[i].1 == Int(i + 1)
  {
    MoveIsPermutation(s, IndexOfId(s, dragged), IndexOfId(s, target));
  }

  predicate DragIgnored(draggedId: Option<string>, target: string)
  {
    draggedId.None? || draggedId.value == "" || draggedId.value == target
  }

  class PanelBoard {
    var panels: seq<Panel>
    var draggedId: Option<string>

    constructor ()
      ensures panels == [] && draggedId == None
    {
      panels := [];
      draggedId := None;
    }

    /** Fetched panels replace the list, copied and sorted by order. */
    method Load(fetched: seq<Panel>)
      modifies this
      ensures panels == SortPanels(fetched)
      ensures draggedId == old(draggedId)
    {
      panels := SortPanels(fetched);
    }

    method DragStart(id: string)
      modifies this
      ensures draggedId == Some(id) && panels == old(panels)
    {
      draggedId := Some(id);
    }

    /** The first index of the panel with this id, or -1. */
    static method FindIndex(a: array<Panel>, id: string) returns (r: int)
      ensures r == IndexOfId(a[..], id)
    {
      r := 0;
      while r < a.Length && a[r].id != id
        invariant 0 <= r <= a.Length
        invariant forall k :: 0 <= k < r ==> a[k].id != id
      {
        r := r + 1;
      }
      if r == a.Length {
        r := -1;
      }
      IndexOfIdFirst(a[..], id, r);
    }

    /**
     * The dragged panel is moved to the position of the panel under the pointer,
     * working on a copy of the list, and the copy is renumbered 1..n.
     */
    method DragOver(target: string)
      requires !DragIgnored(draggedId, target) ==> Listed(panels, draggedId.value) && Listed(panels, target)
      modifies this
      ensures DragIgnored(old(draggedId), target) ==> panels == old(panels)
      ensures !DragIgnored(old(draggedId), target) ==> panels == Reordered(old(panels), old(draggedId).value, target)
      ensures draggedId == old(draggedId)
    {
      if DragIgnored(draggedId, target) {
        return;
      }
      var s := panels;
      var a := new Panel[|s|](i requires 0 <= i < |s| => s[i]);
      assert a[..] == s;
      var from := FindIndex(a, draggedId.value);
      var to := FindIndex(a, target);
      Splice(a, from, to);
      RenumberInPlace(a);
      panels := a[..];
    }

    /** `a.forEach((p, i) => p.order = i + 1)`. */
    static method RenumberInPlace(a: array<Panel>)
      modifies a
      ensures a[..] == Renumber(old(a[..]))
    {
      ghost var m := a[..];
      var i := 0;
      while i < a.Length
        invariant 0 <= i <= a.Length
        invariant forall k :: 0 <= k < i ==> a[k] == m[k].(order := Int(k + 1))
        invariant forall k :: i <= k < a.Length ==> a[k] == m[k]
      {
        a[i] := a[i].(order := Int(i + 1));
        i := i + 1;
      }
    }

    /** The drag ends: the dragged id is cleared and the current orders are submitted. */
    method DragEnd() returns (request: seq<(string, Number)>)
      modifies this
      ensures draggedId == None && panels == old(panels)
      ensures request == OrderRequest(panels)
    {
      draggedId := None;
      request := OrderRequest(panels);
    }
  }

  /** Moves `a[from]` to index `to` in place, shifting the elements in between by one. */
  method Splice<T>(a: array<T>, from: nat, to: nat)
    requires from < a.Length && to < a.Length
    modifies a
    ensures a[..] == Move(old(a[..]), from, to)
  {
    if from < to {
      ShiftDown(a, from, to);
    } else if to < from {
      ShiftUp(a, from, to);
    } else {
      assert Move(a[..], from, to) == a[..];
    }
  }

  method ShiftDown<T>(a: array<T>, from: nat, to: nat)
    requires from < to < a.Length
    modifies a
    ensures a[..] == Move(old(a[..]), from, to)
  {
    ghost var s := a[..];
    var x := a[from];
    var k := from;
    while k < to
      invariant from <= k <= to
      invariant forall i :: 0 <= i < from ==> a[i] == s[i]
      invariant forall i {:trigger a[i]} :: from <= i < k ==> a[i] == s[i + 1]
      invariant forall i :: k <= i < a.Length ==> a[i] == s[i]
    {
      a[k] := a[k + 1];
      k := k + 1;
    }
    a[to] := x;
    MoveDownAt(s, from, to);
    assert a[..] == Move(s, from, to) by {
      forall i | 0 <= i < a.Length
        ensures a[i] == Move(s, from, to)[i]
      {
      }
    }
  }

  method ShiftUp<T>(a: array<T>, from: nat, to: nat)
    requires to < from < a.Length
    modifies a
    ensures a[..] == Move(old(a[..]), from, to)
  {
    ghost var s := a[..];
    var x := a[from];
    var k := from;
    while k > to
      invariant to <= k <= from
      invariant forall i :: 0 <= i < k ==> a[i] == s[i]
      invariant forall i {:trigger a[i]} :: k < i <= from ==> a[i] == s[i - 1]
      invariant forall i :: from < i < a.Length ==> a[i] == s[i]
    {
      a[k] := a[k - 1];
      k := k - 1;
    }
    a[to] := x;
    MoveUpAt(s, from, to);
    assert a[..] == Move(s, from, to) by {
      forall i | 0 <= i < a.Length
        ensures a[i] == Move(s, from, to)[i]
      {
      }
    }
  }

  /** A move down the list, position by position: the elements in between shift back by one. */
  lemma MoveDownAt<T>(s: seq<T>, from: nat, to: nat)
    requires from < to < |s|
    ensures |Move(s, from, to)| == |s|
    ensures forall i {:trigger Move(s, from, to)[i]} :: 0 <= i < |s| ==>
      Move(s, from, to)[i] == (if i < from || to < i then s[i] else if i < to then s[i + 1] else s[from])
  {
    var m := Move(s, from, to);
    forall i | 0 <= i < |s|
      ensures m[i] == (if i < from || to < i then s[i] else if i < to then s[i + 1] else s[from])
    {
      if i < to {
        assert m[i] == Without(s, from)[i];
      } else if i > to {
        assert m[i] == Without(s, from)[i - 1];
      }
    }
  }

  /** A move up the list, position by position: the elements in between shift on by one. */
  lemma MoveUpAt<T>(s: seq<T>, from: nat, to: nat)
    requires to < from < |s|
    ensures |Move(s, from, to)| == |s|
    ensures forall i {:trigger Move(s, from, to)[i]} :: 0 <= i < |s| ==>
      Move(s, from, to)[i] == (if i < to || from < i then s[i] else if to < i then s[i - 1] else s[from])
  {
    var m := Move(s, from, to);
    forall i | 0 <= i < |s|
      ensures m[i] == (if i < to || from < i then s[i] else if to < i then s[i - 1] else s[from])
    {
      if i < to {
        assert m[i] == Without(s, from)[i];
      } else if i > to {
        assert m[i] == Without(s, from)[i - 1];
      }
    }
  }

  lemma IndexOfIdFirst(s: seq<Panel>, id: string, r: int)
    requires -1 <= r < |s|
    requires r >= 0 ==> s[r].id == id && forall k :: 0 <= k < r ==> s[k].id != id
    requires r == -1 ==> forall k :: 0 <= k < |s| ==> s[k].id != id
    ensures r == IndexOfId(s, id)
  {
    var q := IndexOfId(s, id);
    if q >= 0 && r >= 0 {
      assert !(q < r) && !(r < q);
    }
  }
}
