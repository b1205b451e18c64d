/** List.cs: the open/closed list of the A* search, an ArrayList of nodes that
    re-sorts itself by `f` after every insertion and removal. */
module Lists {
  import opened Nodes

  /** ListOrderComparer.Compare: orders nodes by their total cost `f`. */
  function Compare(a: Node, b: Node): (r: int)
    reads a, b
    ensures r == -1 || r == 0 || r == 1
    ensures r == 0 <==> a.f == b.f
    ensures r < 0 <==> a.f < b.f
  {
    if a.f > b.f then 1
    else if a.f < b.f then -1
    else 0
  }

  /** The comparer is a total preorder: any two nodes are related one way or the
      other, the relation is transitive, and it is antisymmetric in sign. */
  lemma CompareIsTotalPreorder(a: Node, b: Node, c: Node)
    ensures Compare(a, b) <= 0 || Compare(b, a) <= 0
    ensures Compare(a, b) <= 0 && Compare(b, c) <= 0 ==> Compare(a, c) <= 0
    ensures Compare(a, b) == -Compare(b, a)
  {
  }

  /** Non-decreasing `f`, the order ListOrderComparer sorts into. */
  ghost predicate SortedByF(s: seq<Node>)
    reads s
  {
    forall i, j :: 0 <= i < j < |s| ==> s[i].f <= s[j].f
  }

  /** A snapshot of the `f` of every listed node: the sort key. */
  function FOf(s: seq<Node>): (key: map<Node, real>)
    reads s
    ensures forall x :: x in s ==> x in key && key[x] == x.f
  {
    map x | x in s :: x.f
  }

  ghost predicate Keyed(s: seq<Node>, key: map<Node, real>)
  {
    forall x :: x in s ==> x in key
  }

  /** Non-decreasing key. */
  ghost predicate SortedBy(s: seq<Node>, key: map<Node, real>)
    requires Keyed(s, key)
  {
    forall i, j :: 0 <= i < j < |s| ==> key[s[i]] <= key[s[j]]
  }

  /** Insertion of `n` before the first element whose key it does not exceed,
      the comparison `Compare(n, m) <= 0` on the snapshot. */
  function Insert(n: Node, s: seq<Node>, key: map<Node, real>): (r: seq<Node>)
    requires n in key && Keyed(s, key)
    ensures multiset(r) == multiset(s) + multiset{n}
    ensures forall i :: 0 <= i < |r| ==> r[i] == n || r[i] in s
  {
    if s == [] then [n]
    else if key[n] <= key[s[0]] then [n] + s
    else
      assert s == [s[0]] + s[1..];
      [s[0]] + Insert(n, s[1..], key)
  }

  lemma {:induction false} InsertSorted(n: Node, s: seq<Node>, key: map<Node, real>)
    requires n in key && Keyed(s, key) && SortedBy(s, key)
    ensures Keyed(Insert(n, s, key), key)
    ensures SortedBy(Insert(n, s, key), key)
  {
    var r := Insert(n, s, key);
    if s != [] && key[s[0]] < key[n] {
      var rest := Insert(n, s[1..], key);
      InsertSorted(n, s[1..], key);
      assert r == [s[0]] + rest;
      forall j | 0 <= j < |rest|
        ensures key[s[0]] <= key[rest[j]]
      {
        if rest[j] != n {
          var k :| 0 <= k < |s[1..]| && s[1..][k] == rest[j];
          assert s[k + 1] == rest[j];
        }
      }
    }
  }

  /** One admissible result of ArrayList.Sort with ListOrderComparer. The sort is
      not stable, so callers rely only on InsertionSortSorted: sorted and a
      permutation, with nodes of equal `f` in no promised order. */
  function InsertionSort(s: seq<Node>, key: map<Node, real>): (r: seq<Node>)
    requires Keyed(s, key)
    ensures multiset(r) == multiset(s)
  {
    if s == [] then []
    else
      assert s == [s[0]] + s[1..];
      var t := InsertionSort(s[1..], key);
      assert forall x :: x in t ==> x in multiset(s[1..]);
      Insert(s[0], t, key)
  }

  lemma {:induction false} InsertionSortSorted(s: seq<Node>, key: map<Node, real>)
    requires Keyed(s, key)
    ensures Keyed(InsertionSort(s, key), key)
    ensures SortedBy(InsertionSort(s, key), key)
  {
    if s != [] {
      var t := InsertionSort(s[1..], key);
      InsertionSortSorted(s[1..], key);
      InsertSorted(s[0], t, key);
    }
  }

  /** Sorting by the snapshot of the current `f` values sorts by `f`. */
  method SortNodes(s: seq<Node>) returns (r: seq<Node>)
    ensures multiset(r) == multiset(s) && |r| == |s|
    ensures SortedByF(r)
  {
    var key := FOf(s);
    r := InsertionSort(s, key);
    InsertionSortSorted(s, key);
    assert forall x :: x in r ==> x in multiset(s);
    assert |r| == |multiset(r)| == |multiset(s)| == |s|;
  }

  /** ArrayList.Remove: drop the first occurrence of `n` (by reference), if any. */
  function RemoveFirst(s: seq<Node>, n: Node): (r: seq<Node>)
    ensures n in s ==> multiset(r) == multiset(s) - multiset{n} && |r| == |s| - 1
    ensures n !in s ==> r == s
  {
    if s == [] then []
    else
      assert s == [s[0]] + s[1..];
      if s[0] == n then s[1..]
      else [s[0]] + RemoveFirst(s[1..], n)
  }

  class List {
    var nodes: seq<Node>

    constructor ()
      ensures nodes == []
    {
      nodes := [];
    }

    function Length(): nat
      reads this
    {
      |nodes|
    }

    function Contains(node: Node): bool
      reads this
    {
      node in nodes
    }

    /** The head of the list, or null when it is empty; on a sorted list the head
        has the least `f`. */
    function First(): (r: Node?)
      reads this, nodes
      ensures r == null <==> Length() == 0
      ensures r != null ==> Contains(r)
      ensures r != null && SortedByF(nodes) ==> forall m :: m in nodes ==> r.f <= m.f
    {
      if |nodes| > 0 then nodes[0] else null
    }

    method Add(node: Node)
      modifies this`nodes
      ensures multiset(nodes) == old(multiset(nodes)) + multiset{node}
      ensures SortedByF(nodes)
      ensures Length() == old(Length()) + 1 && Contains(node)
    {
      nodes := SortNodes(nodes + [node]);
      assert node in multiset(nodes);
    }

    method Remove(node: Node)
      modifies this`nodes
      ensures old(Contains(node)) ==> multiset(nodes) == old(multiset(nodes)) - multiset{node}
      ensures old(Contains(node)) ==> Length() == old(Length()) - 1
      ensures !old(Contains(node)) ==> multiset(nodes) == old(multiset(nodes))
      ensures !old(Contains(node)) ==> Length() == old(Length())
      ensures SortedByF(nodes)
    {
      nodes := SortNodes(RemoveFirst(nodes, node));
    }

    method Sort()
      modifies this`nodes
      ensures multiset(nodes) == old(multiset(nodes))
      ensures SortedByF(nodes)
    {
      nodes := SortNodes(nodes);
    }
  }
}
