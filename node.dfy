/** Node.cs: the search record of one grid cell. */
module Nodes {
  import opened Geometry

  class Node {
    var f: real
    var g: real
    var h: real
    var bObstacle: bool
    var parent: Node?
    /** Set once by the constructor and never reassigned afterwards. */
    const position: Point

    /** `Node()`: the position keeps its default, the zero vector. */
    constructor ()
      ensures g == 1.0 && h == 0.0 && f == g + h
      ensures !bObstacle && parent == null
      ensures position == Point(0.0, 0.0, 0.0)
    {
      h := 0.0;
      g := 1.0;
      f := 0.0 + 1.0;
      bObstacle := false;
      parent := null;
      position := Point(0.0, 0.0, 0.0);
    }

    /** `Node(pos)`. */
    constructor At(pos: Point)
      ensures g == 1.0 && h == 0.0 && f == g + h
      ensures !bObstacle && parent == null
      ensures position == pos
    {
      h := 0.0;
      g := 1.0;
      f := 0.0 + 1.0;
      bObstacle := false;
      parent := null;
      position := pos;
    }

    method MarkAsObstacle()
      modifies this`bObstacle
      ensures bObstacle
    {
      bObstacle := true;
    }

    /** IComparable.CompareTo: orders nodes by their heuristic `h`. */
    function CompareTo(other: Node): (r: int)
      reads this, other
      ensures r == -1 || r == 0 || r == 1
      ensures r < 0 <==> h < other.h
      ensures r > 0 <==> h > other.h
    {
      if h < other.h then -1
      else if h > other.h then 1
      else 0
    }
  }

  /** The comparison is antisymmetric, and it calls two nodes equal exactly when
      their `h` agree. */
  lemma CompareToAntisymmetric(a: Node, b: Node)
    ensures a.CompareTo(b) == -b.CompareTo(a)
    ensures a.CompareTo(b) == 0 <==> a.h == b.h
  {
  }
}
