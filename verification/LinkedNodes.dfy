/**
 The doubly linked list of call and return records, relinked in place.
 */
module LinkedLists {
  import opened Histories
  import opened Entries
  import opened Links

  class Node<T> {
    const value: T
    const matched: Node?<T>
    const id: int
    var next: Node?<T>
    var prev: Node?<T>
    ghost const rank: nat  // how many nodes were pushed before this one

    constructor (value: T, matched: Node?<T>, id: int, ghost rank: nat)
      ensures this.value == value && this.matched == matched && this.id == id && this.rank == rank
      ensures next == null && prev == null
    {
      this.value, this.matched, this.id, this.rank := value, matched, id, rank;
      next, prev := null, null;
    }
  }

  ghost function At<T>(nodes: seq<Node<T>>, i: int): Node?<T> {
    if 0 <= i < |nodes| then nodes[i] else null
  }

  /** The first return with this name at or after position `i`, or the end. */
  ghost function NextReturn<T>(es: seq<Entry<T>>, i: nat, id: nat): (j: nat)
    requires i <= |es|
    ensures i <= j <= |es|
    decreases |es| - i
  {
    if i == |es| || (es[i].kind.Return? && es[i].id == id) then i else NextReturn(es, i + 1, id)
  }

  /** The nodes of the entries from position `k` on; a call knows its return. */
  ghost predicate CarriesFrom<T>(nodes: seq<Node<T>>, es: seq<Entry<T>>, k: nat)
    requires k <= |es|
  {
    && |nodes| == |es| - k
    && forall i :: 0 <= i < |nodes| ==> CarriesAt(nodes, es, k, i)
  }

  ghost predicate CarriesAt<T>(nodes: seq<Node<T>>, es: seq<Entry<T>>, k: nat, i: nat)
    requires i < |nodes| && |nodes| == |es| - k
  {
    && nodes[i].value == es[k + i].value
    && nodes[i].id == es[k + i].id
    && nodes[i].matched == if es[k + i].kind.Call? then At(nodes, NextReturn(es, k + i + 1, es[k + i].id) - k) else null
  }

  /** Node by node, the list carries the entries. */
  ghost predicate Carries<T>(nodes: seq<Node<T>>, es: seq<Entry<T>>) {
    CarriesFrom(nodes, es, 0)
  }

  /** The returns seen from position `k` on, by name. */
  ghost predicate Matches<T>(matches: map<nat, Node<T>>, nodes: seq<Node<T>>, es: seq<Entry<T>>, k: nat)
    requires k <= |es| && |nodes| == |es| - k
  {
    forall id: nat ::
      var j := NextReturn(es, k, id);
      if id in matches then j < |es| && matches[id] == nodes[j - k] else j == |es|
  }

  lemma CarriesPush<T>(nodes: seq<Node<T>>, es: seq<Entry<T>>, k: nat, node: Node<T>, matches: map<nat, Node<T>>,
                       matches': map<nat, Node<T>>)
    requires 0 < k <= |es| && CarriesFrom(nodes, es, k) && Matches(matches, nodes, es, k)
    requires node.value == es[k - 1].value && node.id == es[k - 1].id
    requires if es[k - 1].kind.Call?
             then matches' == matches && node.matched == if es[k - 1].id in matches then matches[es[k - 1].id] else null
             else matches' == matches[es[k - 1].id := node] && node.matched == null
    ensures CarriesFrom([node] + nodes, es, k - 1) && Matches(matches', [node] + nodes, es, k - 1)
  {
    var all, k' := [node] + nodes, k - 1;
    forall i | 0 <= i < |all| ensures CarriesAt(all, es, k', i) {
      if i > 0 {
        assert all[i] == nodes[i - 1] && CarriesAt(nodes, es, k, i - 1);
      }
    }
  }

  /** A pushed node moves everybody else's number, and nobody else's neighbours but the old head's. */
  lemma PushedPlace<T>(nodes: seq<Node<T>>, node: Node<T>, l: Links, i: nat)
    requires Shaped(l) && |l.next| == |nodes| && 0 < i <= |nodes|
    ensures At([node] + nodes, Pushed(l).next[i]) == At(nodes, l.next[i - 1])
    ensures i > 1 ==> At([node] + nodes, Pushed(l).prev[i]) == At(nodes, l.prev[i - 1])
    ensures i == 1 ==> At([node] + nodes, Pushed(l).prev[i]) == node
  {
  }

  class LinkedNodes<T> {
    var head: Node?<T>

    ghost var nodes: seq<Node<T>>  // every node pushed, in list order
    ghost var links: Links         // the links of each node, by number

    /** The pointers of every node are the numbered links. */
    ghost predicate Valid()
      reads this, nodes
    {
      && (forall i {:trigger nodes[i].rank} :: 0 <= i < |nodes| ==> nodes[i].rank == |nodes| - 1 - i)
      && Shaped(links) && |links.next| == |nodes|
      && head == At(nodes, 0)
      && (forall i {:trigger nodes[i].next} :: 0 <= i < |nodes| ==> nodes[i].next == At(nodes, links.next[i]))
      && (forall i {:trigger nodes[i].prev} :: 0 <= i < |nodes| ==> nodes[i].prev == At(nodes, links.prev[i]))
    }

    constructor ()
      ensures Valid() && nodes == [] && links == Untouched(0)
    {
      head, nodes, links := null, [], Untouched(0);
    }

    method PushFront(newHead: Node<T>)
      requires Valid() && newHead.rank == |nodes| && newHead.next == null && newHead.prev == null
      modifies this, nodes, newHead
      ensures Valid() && nodes == [newHead] + old(nodes) && links == Pushed(old(links))
    {
      ghost var before, was := nodes, links;
      if head != null {
        head.prev := newHead;
        newHead.next := head;
      }
      head := newHead;
      nodes := [newHead] + nodes;
      links := Pushed(links);
      forall i | 0 <= i < |nodes| ensures nodes[i].rank == |nodes| - 1 - i {
        assert i > 0 ==> nodes[i] == before[i - 1];
      }
      forall i | 0 <= i < |nodes|
        ensures nodes[i].next == At(nodes, links.next[i]) && nodes[i].prev == At(nodes, links.prev[i])
      {
        if i > 0 {
          assert nodes[i] == before[i - 1];
          PushedPlace(before, newHead, was, i);
        }
      }
    }

    /** Walks the list and counts what has not been taken out. */
    method Len(ghost gone: seq<int>) returns (len: nat)
      requires Valid() && Woven(links, gone)
      ensures len == |nodes| - |gone|
    {
      len := 0;
      var entry := head;
      ghost var i: int := 0;
      FirstStays(links, gone);
      while entry != null
        invariant 0 <= i <= |nodes| && entry == At(nodes, i) && (i < |nodes| ==> i !in gone)
        invariant len == LiveBelow(Elems(gone), i)
        decreases |nodes| - i
      {
        assert LiveAt(links, gone, i);
        LiveJump(Elems(gone), i, links.next[i]);
        entry := entry.next;
        i := links.next[i];
        len := len + 1;
      }
      LiveInAll(links, gone);
    }

    static method FromEntries(entries: seq<Entry<T>>) returns (list: LinkedNodes<T>)
      ensures fresh(list) && fresh(list.nodes)
      ensures list.Valid() && list.links == Untouched(|list.nodes|) && Carries(list.nodes, entries)
    {
      var matches: map<nat, Node<T>> := map[];
      list := new LinkedNodes<T>();
      var i := |entries|;
      while i > 0
        invariant 0 <= i <= |entries|
        invariant fresh(list) && fresh(list.nodes) && list.Valid() && list.links == Untouched(|list.nodes|)
        invariant CarriesFrom(list.nodes, entries, i) && Matches(matches, list.nodes, entries, i)
      {
        ghost var nodes, matches0 := list.nodes, matches;
        var entry := entries[i - 1];
        var node;
        if entry.kind.Call? {
          var matched := if entry.id in matches then matches[entry.id] else null;
          node := new Node(entry.value, matched, entry.id, |nodes|);
        } else {
          node := new Node(entry.value, null, entry.id, |nodes|);
          matches := matches[entry.id := node];
        }
        CarriesPush(nodes, entries, i, node, matches0, matches);
        PushedUntouched(|nodes|);
        list.PushFront(node);
        i := i - 1;
      }
    }

    method SetNext(x: Node<T>, y: Node?<T>, ghost i: int, ghost j: int)
      requires Valid() && 0 <= i < |nodes| && x == nodes[i] && i < j <= |nodes| && y == At(nodes, j)
      modifies x`next, this`links
      ensures Valid() && links == Links(old(links.next)[i := j], old(links.prev))
    {
      x.next := y;
      links := Links(links.next[i := j], links.prev);
      forall k | 0 <= k < |nodes| ensures nodes[k].next == At(nodes, links.next[k]) {
        assert nodes[k].rank == |nodes| - 1 - k && x.rank == |nodes| - 1 - i;
      }
    }

    method SetPrev(x: Node<T>, y: Node?<T>, ghost i: int, ghost j: int)
      requires Valid() && 0 <= i < |nodes| && x == nodes[i] && -1 <= j < i && y == At(nodes, j)
      modifies x`prev, this`links
      ensures Valid() && links == Links(old(links.next), old(links.prev)[i := j])
    {
      x.prev := y;
      links := Links(links.next, links.prev[i := j]);
      forall k | 0 <= k < |nodes| ensures nodes[k].prev == At(nodes, links.prev[k]) {
        assert nodes[k].rank == |nodes| - 1 - k && x.rank == |nodes| - 1 - i;
      }
    }

    /** Makes the neighbours of node number `i` skip it. */
    method TakeOut(x: Node<T>, ghost i: int)
      requires Valid() && 0 <= i < |nodes| && x == nodes[i] && 0 <= links.prev[i]
      modifies nodes, this`links
      ensures Valid() && links == Unlink(old(links), i)
    {
      ghost var p, n := links.prev[i], links.next[i];
      SetNext(x.prev, x.next, p, n);
      if x.next != null {
        SetPrev(x.next, x.prev, n, p);
      }
    }

    /** Makes the neighbours that node number `i` remembers point at it again. */
    method PutBack(x: Node<T>, ghost i: int)
      requires Valid() && 0 <= i < |nodes| && x == nodes[i] && 0 <= links.prev[i]
      modifies nodes, this`links
      ensures Valid() && links == Relink(old(links), i)
    {
      ghost var p, n := links.prev[i], links.next[i];
      SetNext(x.prev, x, p, i);
      if x.next != null {
        SetPrev(x.next, x, n, i);
      }
    }

    /** Takes the call `entry`, number `c`, and then its return, number `r`, out of the list. */
    method Lift(entry: Node<T>, ghost c: int, ghost r: int, ghost gone: seq<int>)
      requires Valid() && Woven(links, gone)
      requires 0 < c < |nodes| && 0 < r < |nodes| && c != r && c !in gone && r !in gone
      requires entry == nodes[c] && entry.matched == nodes[r]
      modifies nodes, this`links
      ensures Valid() && Woven(links, gone + [c] + [r])
    {
      UnlinkKeepsWoven(links, gone, c);
      TakeOut(entry, c);
      UnlinkKeepsWoven(links, gone + [c], r);
      TakeOut(entry.matched, r);
    }

    /** Puts the return of `entry` and then `entry` itself back where they were. */
    method Unlift(entry: Node<T>, ghost c: int, ghost r: int, ghost gone: seq<int>)
      requires Valid() && Woven(links, gone + [c] + [r])
      requires 0 <= c < |nodes| && 0 <= r < |nodes| && entry == nodes[c] && entry.matched == nodes[r]
      modifies nodes, this`links
      ensures Valid() && Woven(links, gone)
    {
      RelinkKeepsWoven(links, gone + [c], r);
      PutBack(entry.matched, r);
      RelinkKeepsWoven(links, gone, c);
      PutBack(entry, c);
    }

    /** Lifting a call and putting it back leaves every pointer of every node as it was. */
    method LiftAndUnlift(entry: Node<T>, ghost c: int, ghost r: int, ghost gone: seq<int>)
      requires Valid() && Woven(links, gone)
      requires 0 < c < |nodes| && 0 < r < |nodes| && c != r && c !in gone && r !in gone
      requires entry == nodes[c] && entry.matched == nodes[r]
      modifies nodes, this`links
      ensures Valid() && links == old(links)
      ensures forall i :: 0 <= i < |nodes| ==>
                nodes[i].next == old(nodes[i].next) && nodes[i].prev == old(nodes[i].prev)
    {
      Lift(entry, c, r, gone);
      Unlift(entry, c, r, gone);
      WovenIsUnique(links, old(links), gone);
    }
  }
}
