/**
 * The doubly linked list of LinkedList.swift: nodes with a value and
 * `prev`/`next` links, a list object holding `first` and `last`, appending,
 * filtering in place, and an iterator.  The ghost field `nodes` lists the
 * nodes from `first` to `last`; `prev` is a weak reference in the source,
 * which only matters for memory management and is an ordinary field here.
 */
module LinkedLists {
  import opened Wrappers
  import Seqs

  class Node<T> {
    const value: T
    var prev: Node?<T>
    var next: Node?<T>

    constructor (value: T)
      ensures this.value == value && prev == null && next == null
    {
      this.value := value;
      prev := null;
      next := null;
    }
  }

  function ValueOf<T>(n: Node<T>): T {
    n.value
  }

  /** Each node links back to the one before it and on to the one after it, and the ends to nothing. */
  ghost predicate Chain<T>(ns: seq<Node<T>>, R: set<Node<T>>)
    reads R
  {
    && (forall i :: 0 <= i < |ns| ==> ns[i] in R)
    && (forall i {:trigger ns[i].prev} :: 0 <= i < |ns| ==> ns[i] in R && ns[i].prev == (if i == 0 then null else ns[i - 1]))
    && (forall i {:trigger ns[i].next} :: 0 <= i < |ns| ==> ns[i] in R && ns[i].next == (if i + 1 == |ns| then null else ns[i + 1]))
  }

  /** The nodes whose values pass `keep`, in order. */
  ghost function Passing<T>(ns: seq<Node<T>>, keep: T -> bool): seq<Node<T>> {
    if ns == [] then [] else (if keep(ns[0].value) then [ns[0]] else []) + Passing(ns[1..], keep)
  }

  /**
   * The state of `filter`'s scan over `ns`, started from `orig`: the first
   * `m` nodes have been tested and passed, the nodes that pass are those
   * of `orig`, and no node appears twice.
   */
  ghost predicate Scanned<T>(orig: seq<Node<T>>, ns: seq<Node<T>>, m: nat, keep: T -> bool) {
    && m <= |ns|
    && Distinct(ns)
    && Passing(ns, keep) == Passing(orig, keep)
    && (forall i :: 0 <= i < m ==> keep(ns[i].value))
  }

  /** `ns[i]`, as a term that distinctness facts are only drawn about on request. */
  ghost function At<T>(ns: seq<Node<T>>, i: nat): Node<T>
    requires i < |ns|
  {
    ns[i]
  }

  /** No node occurs twice. */
  ghost predicate Distinct<T>(ns: seq<Node<T>>) {
    forall i, j {:trigger At(ns, i), At(ns, j)} :: 0 <= i < j < |ns| ==> At(ns, i) != At(ns, j)
  }

  /** The neighbours of position `m`: the nodes whose links an unlinking rewrites. */
  ghost function Around<T>(ns: seq<Node<T>>, m: nat): set<Node<T>>
    requires m < |ns|
  {
    (if m == 0 then {} else {ns[m - 1]}) + (if m + 1 == |ns| then {} else {ns[m + 1]})
  }

  /**
   * Takes `item`, the node at position `m` of a chain, out of it: the
   * node before now links on to the node after and back again.  The
   * node itself keeps both of its links.
   */
  method Unlink<T>(item: Node<T>, ghost ns: seq<Node<T>>, ghost m: nat, ghost R: set<Node<T>>)
    requires m < |ns| && ns[m] == item && Chain(ns, R) && Distinct(ns)
    modifies Around(ns, m)
    ensures var rest := ns[..m] + ns[m + 1..];
      && (forall i :: 0 <= i < |rest| ==> rest[i] in R)
      && (forall i {:trigger rest[i].prev} :: 0 <= i < |rest| ==> rest[i].prev == (if i == 0 then null else rest[i - 1]))
      && (forall i {:trigger rest[i].next} :: 0 <= i < |rest| ==> rest[i].next == (if i + 1 == |rest| then null else rest[i + 1]))
    ensures item.prev == old(item.prev) && item.next == old(item.next)
  {
    ghost var before := if m == 0 then null else ns[m - 1];
    ghost var after := if m + 1 == |ns| then null else ns[m + 1];
    assert item.prev == before && item.next == after;
    assert m > 0 ==> At(ns, m - 1) != At(ns, m);
    assert m + 1 < |ns| ==> At(ns, m) != At(ns, m + 1);
    assert m > 0 && m + 1 < |ns| ==> At(ns, m - 1) != At(ns, m + 1);
    var prev := item.prev;
    if item.prev != null {
      item.prev.next := item.next;
    }
    if item.next != null {
      item.next.prev := prev;
    }
    forall j {:trigger ns[j].prev} | 0 <= j < |ns|
      ensures ns[j].prev == (if j == m + 1 then before else if j == 0 then null else ns[j - 1])
    {
      assert old(ns[j].prev) == (if j == 0 then null else ns[j - 1]);
      assert j != m + 1 && m + 1 < |ns| ==> At(ns, j) != At(ns, m + 1);
    }
    forall j {:trigger ns[j].next} | 0 <= j < |ns|
      ensures ns[j].next == (if j + 1 == m then after else if j + 1 == |ns| then null else ns[j + 1])
    {
      assert old(ns[j].next) == (if j + 1 == |ns| then null else ns[j + 1]);
      assert j + 1 != m && m > 0 ==> At(ns, j) != At(ns, m - 1);
    }
    RelinkedChain(ns, m);
  }

  /** Once the neighbours of position `m` link to each other, the rest of the chain is a chain. */
  lemma RelinkedChain<T>(ns: seq<Node<T>>, m: nat)
    requires m < |ns|
    requires forall j {:trigger ns[j].prev} :: 0 <= j < |ns| ==>
      ns[j].prev == (if j == m + 1 then (if m == 0 then null else ns[m - 1]) else if j == 0 then null else ns[j - 1])
    requires forall j {:trigger ns[j].next} :: 0 <= j < |ns| ==>
      ns[j].next == (if j + 1 == m then (if m + 1 == |ns| then null else ns[m + 1]) else if j + 1 == |ns| then null else ns[j + 1])
    ensures var rest := ns[..m] + ns[m + 1..];
      && (forall i {:trigger rest[i].prev} :: 0 <= i < |rest| ==> rest[i].prev == (if i == 0 then null else rest[i - 1]))
      && (forall i {:trigger rest[i].next} :: 0 <= i < |rest| ==> rest[i].next == (if i + 1 == |rest| then null else rest[i + 1]))
  {
    var rest := ns[..m] + ns[m + 1..];
    forall i | 0 <= i < |rest|
      ensures rest[i].prev == (if i == 0 then null else rest[i - 1])
      ensures rest[i].next == (if i + 1 == |rest| then null else rest[i + 1])
    {
      var j := if i < m then i else i + 1;
      assert rest[i] == ns[j];
      if i > 0 {
        assert rest[i - 1] == (if i - 1 < m then ns[i - 1] else ns[i]);
      }
      if i + 1 < |rest| {
        assert rest[i + 1] == (if i + 1 < m then ns[i + 1] else ns[i + 2]);
      }
    }
  }

  class LinkedList<T> {
    var first: Node?<T>
    var last: Node?<T>
    /** The nodes from `first` to `last`. */
    ghost var nodes: seq<Node<T>>
    /** Every node the list has held. */
    ghost var Repr: set<Node<T>>

    ghost predicate Valid()
      reads this, Repr
    {
      && Chain(nodes, Repr)
      && Distinct(nodes)
      && (if nodes == [] then first == null && last == null
          else first == nodes[0] && last == nodes[|nodes| - 1])
    }

    /**
     * The body of `filter`'s loop for a node that fails the test: unlink it
     * and move `first` or `last` off it when it is `head` or `tail`.
     */
    method Drop(item: Node<T>, head: Node?<T>, tail: Node?<T>, ghost orig: seq<Node<T>>, ghost ns: seq<Node<T>>, ghost m: nat, ghost keep: T -> bool)
      returns (ghost rest: seq<Node<T>>)
      requires m < |ns| && ns[m] == item && !keep(item.value)
      requires Chain(ns, Repr) && Scanned(orig, ns, m, keep)
      modifies this, Around(ns, m)
      ensures Chain(rest, Repr) && Scanned(orig, rest, m, keep)
      ensures rest == ns[..m] + ns[m + 1..]
      ensures m < |rest| ==> rest[m] == ns[m + 1]
      ensures forall i :: 0 <= i < |rest| ==> rest[i] != item && rest[i] == ns[if i < m then i else i + 1]
      ensures item.next == old(item.next)
      ensures first == (if item == head then old(item.next) else old(first))
      ensures last == (if item == tail then old(item.prev) else old(last))
      ensures head == ns[0] ==> first == (if m != 0 then old(first) else if rest == [] then null else rest[0])
      ensures tail == ns[|ns| - 1] ==> last == (if m + 1 != |ns| then old(last) else if rest == [] then null else rest[|rest| - 1])
      ensures Repr == old(Repr)
    {
      ScannedRemove(orig, ns, m, keep);
      Unlink(item, ns, m, Repr);
      if item == head {
        first := item.next;
      }
      if item == tail {
        last := item.prev;
      }
      rest := ns[..m] + ns[m + 1..];
    }

    /** The values in list order. */
    ghost function Values(): seq<T>
      reads this
    {
      Seqs.Map(nodes, ValueOf)
    }

    constructor ()
      ensures Valid() && nodes == []
    {
      first := null;
      last := null;
      nodes := [];
      Repr := {};
    }

    /**
     * `append`: a new node after the last one; an empty list gets it as
     * both its first and last node.
     */
    method Append(value: T)
      requires Valid()
      modifies this, Repr
      ensures Valid()
      ensures Values() == old(Values()) + [value]
      ensures |nodes| == |old(nodes)| + 1 && nodes[..|old(nodes)|] == old(nodes) && fresh(nodes[|old(nodes)|])
      ensures old(nodes) == [] ==> first == last == nodes[0]
      ensures old(nodes) != [] ==> first == old(first) && old(last).next == last && last.prev == old(last)
    {
      ghost var ns0 := nodes;
      if last != null {
        var previousLast := last;
        assert previousLast == nodes[|nodes| - 1];
        previousLast.next := new Node(value);
        previousLast.next.prev := previousLast;
        last := previousLast.next;
      } else {
        first := new Node(value);
        last := first;
      }
      nodes := nodes + [last];
      Repr := Repr + {last};
      forall i, j | 0 <= i < j < |nodes|
        ensures At(nodes, i) != At(nodes, j)
      {
        assert At(nodes, i) == ns0[i] && ns0[i] in old(Repr);
        if j < |ns0| {
          assert At(nodes, j) == At(ns0, j) && At(nodes, i) == At(ns0, i);
        }
      }
      assert Chain(nodes, Repr) by {
        forall i | 0 <= i < |nodes|
          ensures nodes[i].prev == (if i == 0 then null else nodes[i - 1])
          ensures nodes[i].next == (if i + 1 == |nodes| then null else nodes[i + 1])
        {
          if i + 1 < |nodes| {
            assert nodes[i] == old(nodes)[i] && nodes[i] != last;
            assert nodes[i].prev == old(nodes[i].prev);
            assert old(nodes[i].prev) == (if i == 0 then null else old(nodes)[i - 1]);
            if i > 0 {
              assert nodes[i - 1] == old(nodes)[i - 1];
            }
            if i + 2 < |nodes| {
              assert nodes[i + 1] == old(nodes)[i + 1];
              assert nodes[i].next == old(nodes[i].next);
            }
          } else if i > 0 {
            assert nodes[i - 1] == old(nodes)[i - 1];
          }
        }
      }
    }

    /**
     * `filter(comparator:)` with the evidently intended head update: a
     * node that fails the test is unlinked, and `first` moves on when the
     * node removed is the list's current first node.  The list keeps
     * exactly the nodes that pass, in order.
     */
    method Filter(keep: T -> bool)
      requires Valid()
      modifies this, Repr
      ensures Valid()
      ensures nodes == Seqs.Filter(old(nodes), (n: Node<T>) => keep(n.value))
      ensures Values() == Seqs.Filter(old(Values()), keep)
    {
      if first == null || last == null {
        assert nodes == [];
        return;
      }
      var last0 := last;
      ghost var orig := nodes;
      ghost var ns := nodes;
      ghost var m := 0;

      var item: Node?<T> := first;
      while item != null
        invariant 0 <= m <= |ns|
        invariant item == (if m < |ns| then ns[m] else null)
        invariant Chain(ns, Repr)
        invariant Scanned(orig, ns, m, keep)
        invariant first == (if ns == [] then null else ns[0])
        invariant last == (if ns == [] then null else ns[|ns| - 1])
        invariant m < |ns| ==> last0 == ns[|ns| - 1]
        invariant Repr == old(Repr)
        decreases |ns| - m
      {
        if !keep(item.value) {
          ns := Drop(item, first, last0, orig, ns, m, keep);
        } else {
          m := m + 1;
        }
        item := item.next;
      }
      ScanDone(orig, ns, keep);
      nodes := ns;
    }

    /**
     * The state of `filter`'s loop as written, before `item` is tested:
     * the scan has reached position `m` of `ns`, the links form a chain,
     * and `first` and `last` are where the loop has left them.
     */
    ghost predicate ScanAsWritten(item: Node?<T>, first0: Node<T>, last0: Node<T>, orig: seq<Node<T>>,
                                  ns: seq<Node<T>>, m: nat, gone: bool, keep: T -> bool)
      reads this, Repr
    {
      && m <= |ns|
      && item == (if m < |ns| then ns[m] else null)
      && Chain(ns, Repr)
      && Scanned(orig, ns, m, keep)
      && orig != [] && first0 == orig[0]
      && HeadAsWritten(orig, ns, m, gone, first, keep)
      && last == (if ns == [] then null else ns[|ns| - 1])
      && (m < |ns| ==> last0 == ns[|ns| - 1])
    }

    /** One pass of `filter`'s loop as written, with `first` and `last` captured on entry. */
    method StepAsWritten(item: Node<T>, first0: Node<T>, last0: Node<T>, keep: T -> bool,
                         ghost orig: seq<Node<T>>, ghost ns: seq<Node<T>>, ghost m: nat, ghost gone: bool)
      returns (next: Node?<T>, ghost ns': seq<Node<T>>, ghost m': nat, ghost gone': bool)
      requires ScanAsWritten(item, first0, last0, orig, ns, m, gone, keep)
      modifies this, Repr
      ensures ScanAsWritten(next, first0, last0, orig, ns', m', gone', keep)
      ensures Repr == old(Repr) && |ns'| - m' < |ns| - m
    {
      ns', m', gone' := ns, m, gone;
      if !keep(item.value) {
        ghost var first1 := first;
        assert item.next == (if m + 1 < |ns| then ns[m + 1] else null);
        ns' := Drop(item, first0, last0, orig, ns, m, keep);
        HeadDropped(orig, ns, m, gone, first1, first, keep);
        gone' := gone || m == 0;
      } else {
        HeadKept(orig, ns, m, gone, first, keep);
        m' := m + 1;
      }
      next := item.next;
    }

    /**
     * `filter(comparator:)` as written: it compares each removed node with
     * the first node captured on entry, so only the removal of that
     * original first node moves `first`.  When the first two nodes both
     * fail the test, `first` is left on the second one, which is no longer
     * in the list.
     */
    method FilterAsWritten(keep: T -> bool)
      requires Valid()
      modifies this, Repr
      ensures Chain(nodes, Repr) && Distinct(nodes)
      ensures nodes == Seqs.Filter(old(nodes), (n: Node<T>) => keep(n.value))
      ensures last == (if nodes == [] then null else nodes[|nodes| - 1])
      ensures first == (if old(nodes) == [] then null
                        else if keep(old(nodes)[0].value) then old(nodes)[0]
                        else if |old(nodes)| > 1 then old(nodes)[1] else null)
      ensures |old(nodes)| >= 2 && !keep(old(nodes)[0].value) && !keep(old(nodes)[1].value)
              ==> first != null && first !in nodes && !keep(first.value)
    {
      if first == null || last == null {
        assert nodes == [];
        return;
      }
      var first0 := first;
      var last0 := last;
      ghost var orig := nodes;
      ghost var ns := nodes;
      ghost var m := 0;
      ghost var headGone := false;

      var item: Node?<T> := first;
      while item != null
        invariant ScanAsWritten(item, first0, last0, orig, ns, m, headGone, keep)
        invariant Repr == old(Repr)
        decreases |ns| - m
      {
        item, ns, m, headGone := StepAsWritten(item, first0, last0, keep, orig, ns, m, headGone);
      }
      ScanDone(orig, ns, keep);
      HeadAfterScan(orig, ns, headGone, first, keep);
      nodes := ns;
    }
  }

  /**
   * Where `filter` as written leaves `first` during its scan: on the
   * original first node until that node is dropped (`gone`), and from then
   * on the node that followed it.
   */
  ghost predicate HeadAsWritten<T>(orig: seq<Node<T>>, ns: seq<Node<T>>, m: nat, gone: bool, first: Node?<T>, keep: T -> bool) {
    && |orig| > 0
    && (!gone ==> && ns != [] && ns[0] == orig[0] && first == orig[0]
                  && (m > 0 ==> keep(orig[0].value))
                  && (m == 0 ==> |ns| == |orig| && (|ns| > 1 ==> ns[1] == orig[1])))
    && (gone ==> && !keep(orig[0].value) && first == (if |orig| > 1 then orig[1] else null)
                 && forall i :: 0 <= i < |ns| ==> ns[i] != orig[0])
  }

  lemma HeadDropped<T>(orig: seq<Node<T>>, ns: seq<Node<T>>, m: nat, gone: bool, first: Node?<T>, first': Node?<T>, keep: T -> bool)
    requires m < |ns| && !keep(ns[m].value) && Scanned(orig, ns, m, keep)
    requires HeadAsWritten(orig, ns, m, gone, first, keep)
    requires first' == (if ns[m] == orig[0] then (if m + 1 < |ns| then ns[m + 1] else null) else first)
    ensures HeadAsWritten(orig, ns[..m] + ns[m + 1..], m, gone || m == 0, first', keep)
  {
    ScannedRemove(orig, ns, m, keep);
  }

  lemma HeadKept<T>(orig: seq<Node<T>>, ns: seq<Node<T>>, m: nat, gone: bool, first: Node?<T>, keep: T -> bool)
    requires m < |ns| && keep(ns[m].value)
    requires HeadAsWritten(orig, ns, m, gone, first, keep)
    ensures HeadAsWritten(orig, ns, m + 1, gone, first, keep)
  {
  }

  /** A finished scan holds the nodes that pass, and their values are the values that pass. */
  lemma ScanDone<T>(orig: seq<Node<T>>, ns: seq<Node<T>>, keep: T -> bool)
    requires Scanned(orig, ns, |ns|, keep)
    ensures ns == Seqs.Filter(orig, (n: Node<T>) => keep(n.value))
    ensures Seqs.Map(ns, ValueOf) == Seqs.Filter(Seqs.Map(orig, ValueOf), keep)
  {
    PassingAll(ns, keep);
    PassingIsFilter(orig, keep);
    ValuesOfFilter(orig, keep);
  }

  /**
   * After the scan, `filter` as written has left `first` on the original
   * first node when it passed, and otherwise on the node that followed it,
   * which is out of the list when it failed as well.
   */
  lemma HeadAfterScan<T>(orig: seq<Node<T>>, ns: seq<Node<T>>, gone: bool, first: Node?<T>, keep: T -> bool)
    requires Scanned(orig, ns, |ns|, keep) && HeadAsWritten(orig, ns, |ns|, gone, first, keep)
    requires ns == Seqs.Filter(orig, (n: Node<T>) => keep(n.value))
    ensures first == (if keep(orig[0].value) then orig[0] else if |orig| > 1 then orig[1] else null)
    ensures |orig| >= 2 && !keep(orig[0].value) && !keep(orig[1].value)
            ==> first != null && first !in ns && !keep(first.value)
  {
  }

  /** Taking a failing node out of the scan keeps the scan's state. */
  lemma ScannedRemove<T>(orig: seq<Node<T>>, ns: seq<Node<T>>, m: nat, keep: T -> bool)
    requires m < |ns| && !keep(ns[m].value) && Scanned(orig, ns, m, keep)
    ensures var rest := ns[..m] + ns[m + 1..];
      && Scanned(orig, rest, m, keep)
      && (forall i :: 0 <= i < |rest| ==> rest[i] != ns[m] && rest[i] == ns[if i < m then i else i + 1])
      && (ns[m] == ns[0] <==> m == 0)
      && (ns[m] == ns[|ns| - 1] <==> m + 1 == |ns|)
  {
    var rest := ns[..m] + ns[m + 1..];
    assert m != 0 ==> At(ns, 0) != At(ns, m);
    assert m + 1 != |ns| ==> At(ns, m) != At(ns, |ns| - 1);
    DistinctRemove(ns, m);
    PassingRemove(ns, m, keep);
    forall i | 0 <= i < |rest|
      ensures rest[i] != ns[m]
    {
      assert rest[i] == At(ns, if i < m then i else i + 1) && ns[m] == At(ns, m);
    }
  }

  lemma DistinctRemove<T>(s: seq<Node<T>>, m: nat)
    requires m < |s| && Distinct(s)
    ensures Distinct(s[..m] + s[m + 1..])
  {
    var r := s[..m] + s[m + 1..];
    forall i, j | 0 <= i < j < |r| ensures At(r, i) != At(r, j) {
      var i' := if i < m then i else i + 1;
      var j' := if j < m then j else j + 1;
      assert r[i] == At(s, i') && r[j] == At(s, j');
    }
  }

  lemma {:induction false} PassingAppend<T>(a: seq<Node<T>>, b: seq<Node<T>>, keep: T -> bool)
    ensures Passing(a + b, keep) == Passing(a, keep) + Passing(b, keep)
  {
    if a != [] {
      PassingAppend(a[1..], b, keep);
      assert (a + b)[1..] == a[1..] + b;
    } else {
      assert a + b == b;
    }
  }

  /** Taking out a node that fails the test leaves the passing nodes as they were. */
  lemma PassingRemove<T>(ns: seq<Node<T>>, m: nat, keep: T -> bool)
    requires m < |ns| && !keep(ns[m].value)
    ensures Passing(ns[..m] + ns[m + 1..], keep) == Passing(ns, keep)
    ensures forall i :: 0 <= i < m ==> (ns[..m] + ns[m + 1..])[i] == ns[i]
  {
    var r := ns[..m] + ns[m + 1..];
    PassingAppend(ns[..m], ns[m..], keep);
    PassingAppend(ns[..m], ns[m + 1..], keep);
    assert ns[m..][1..] == ns[m + 1..];
    assert Passing(ns[m..], keep) == Passing(ns[m + 1..], keep);
    assert ns[..m] + ns[m..] == ns;
    forall i | 0 <= i < m
      ensures r[i] == ns[i]
    {
    }
  }

  /** When every node passes, nothing is dropped. */
  lemma {:induction false} PassingAll<T>(ns: seq<Node<T>>, keep: T -> bool)
    requires forall i :: 0 <= i < |ns| ==> keep(ns[i].value)
    ensures Passing(ns, keep) == ns
  {
    if ns != [] {
      PassingAll(ns[1..], keep);
    }
  }

  lemma {:induction false} PassingIsFilter<T>(ns: seq<Node<T>>, keep: T -> bool)
    ensures Passing(ns, keep) == Seqs.Filter(ns, (n: Node<T>) => keep(n.value))
  {
    if ns != [] {
      PassingIsFilter(ns[1..], keep);
    }
  }

  /** The values of the nodes that pass are the values that pass. */
  lemma {:induction false} ValuesOfFilter<T>(ns: seq<Node<T>>, keep: T -> bool)
    ensures Seqs.Map(Seqs.Filter(ns, (n: Node<T>) => keep(n.value)), ValueOf)
         == Seqs.Filter(Seqs.Map(ns, ValueOf), keep)
  {
    if ns != [] {
      ValuesOfFilter(ns[1..], keep);
      assert Seqs.Map(ns, ValueOf)[1..] == Seqs.Map(ns[1..], ValueOf);
    }
  }

  /**
   * `LinkedListIterator`: before the first call `current` is nil; each
   * call moves to the next node and returns its value.  Past the end it
   * returns nil and starts over.
   */
  class ListIterator<T> {
    const linkedList: LinkedList<T>
    var current: Node?<T>
    /** How many values have been returned since the last start. */
    ghost var position: nat

    ghost predicate Valid()
      reads this, linkedList, linkedList.Repr
    {
      && linkedList.Valid()
      && position <= |linkedList.nodes|
      && current == (if position == 0 then null else linkedList.nodes[position - 1])
    }

    constructor (linkedList: LinkedList<T>)
      requires linkedList.Valid()
      ensures Valid() && this.linkedList == linkedList && position == 0
    {
      this.linkedList := linkedList;
      current := null;
      position := 0;
    }

    /** `next()`. */
    method Next() returns (r: Option<T>)
      requires Valid()
      modifies this
      ensures Valid()
      ensures old(position) < |linkedList.nodes| ==> position == old(position) + 1 && r == Some(linkedList.Values()[old(position)])
      ensures old(position) == |linkedList.nodes| ==> position == 0 && r == None
    {
      if current != null {
        current := current.next;
        if current == null {
          position := 0;
          return None;
        }
        position := position + 1;
        return Some(current.value);
      }
      current := linkedList.first;
      if current == null {
        return None;
      }
      position := 1;
      return Some(current.value);
    }
  }

  /** A `for value in list` loop: it visits the values in list order. */
  method Elements<T>(list: LinkedList<T>) returns (values: seq<T>)
    requires list.Valid()
    ensures values == list.Values()
  {
    var it := new ListIterator(list);
    values := [];
    var x := it.Next();
    while x.Some?
      invariant it.Valid() && it.linkedList == list
      invariant |values| < it.position || x.None?
      invariant x.Some? ==> it.position == |values| + 1 && x.value == list.Values()[|values|]
      invariant x.None? ==> |values| == |list.nodes|
      invariant |values| <= |list.nodes| && values == list.Values()[..|values|]
      decreases |list.nodes| - |values|
    {
      values := values + [x.value];
      x := it.Next();
    }
    assert list.Values()[..|values|] == list.Values();
  }
}
