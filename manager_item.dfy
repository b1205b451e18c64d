/** ManagerItem.cs: the player's inventory, a count per item name, which
    announces every pickup together with the new count; and the one listener
    of that announcement, ManagerGame.cs, which unlocks the secret door when
    the count of "Key" reaches two.

    The dictionary is a `map<string, int>` field that `AddItem` reassigns, and
    the announcements the class has made are kept in the ghost log
    `notices`. As a reference, the counts and the announcements after a
    sequence of pickups are the functions `CountsAfter` and `Notices`, and the
    count of a name is proved to be the number of its occurrences in that
    sequence. */
module Items {
  /** One invocation of OnItemCollected: the name and its count after the
      pickup. */
  datatype Collected = Collected(itemName: string, count: int)

  /** GetItemCount on a dictionary: the stored count, or 0 for a name that was
      never added. */
  function Lookup(counts: map<string, int>, itemName: string): (r: int)
    ensures itemName !in counts ==> r == 0
    ensures itemName in counts ==> r == counts[itemName]
  {
    if itemName in counts then counts[itemName] else 0
  }

  /** The dictionary update of AddItem: a known name goes up by one, a new
      name starts at 1, and no other name changes. */
  function AddStep(counts: map<string, int>, itemName: string): (r: map<string, int>)
    ensures itemName in r && r[itemName] == Lookup(counts, itemName) + 1
    ensures forall n :: n != itemName ==> Lookup(r, n) == Lookup(counts, n)
    ensures r.Keys == counts.Keys + {itemName}
  {
    if itemName in counts then counts[itemName := counts[itemName] + 1] else counts[itemName := 1]
  }

  /** The dictionary after the given pickups, starting from empty. */
  function CountsAfter(names: seq<string>): map<string, int>
  {
    if names == [] then map[] else AddStep(CountsAfter(names[..|names| - 1]), names[|names| - 1])
  }

  /** The announcements made during the given pickups, in order. */
  function Notices(names: seq<string>): (r: seq<Collected>)
    ensures |r| == |names|
  {
    if names == [] then []
    else
      var last := names[|names| - 1];
      Notices(names[..|names| - 1]) + [Collected(last, Lookup(CountsAfter(names), last))]
  }

  /** The count of a name is the number of times it was picked up: it starts
      at 0, and n pickups of it give n. */
  lemma {:induction false} CountIsOccurrences(names: seq<string>, itemName: string)
    ensures Lookup(CountsAfter(names), itemName) == multiset(names)[itemName]
    decreases |names|
  {
    if names != [] {
      var prefix := names[..|names| - 1];
      assert names == prefix + [names[|names| - 1]];
      CountIsOccurrences(prefix, itemName);
    }
  }

  /** Every announcement carries the number of times its name has been
      picked up so far, counting this pickup. */
  lemma {:induction false} NoticeCarriesCount(names: seq<string>, i: nat)
    requires i < |names|
    ensures Notices(names)[i] == Collected(names[i], multiset(names[..i + 1])[names[i]])
    decreases |names|
  {
    var prefix := names[..|names| - 1];
    if i == |names| - 1 {
      assert names[..i + 1] == names;
      CountIsOccurrences(names, names[i]);
    } else {
      NoticeCarriesCount(prefix, i);
      assert prefix[..i + 1] == names[..i + 1];
    }
  }

  /** HandleItemCollected in ManagerGame: the secret door opens on the
      announcement of the second "Key". */
  predicate Unlocks(c: Collected)
  {
    c.itemName == "Key" && c.count == 2
  }

  /** The number of announcements that open the door. */
  function UnlockCount(notices: seq<Collected>): nat
  {
    if notices == [] then 0
    else UnlockCount(notices[..|notices| - 1]) + (if Unlocks(notices[|notices| - 1]) then 1 else 0)
  }

  /** The door opens exactly once if two or more keys were picked up, and
      never otherwise. */
  lemma {:induction false} UnlockOnce(names: seq<string>)
    ensures UnlockCount(Notices(names)) == (if multiset(names)["Key"] >= 2 then 1 else 0)
    decreases |names|
  {
    if names != [] {
      var prefix := names[..|names| - 1];
      var last := names[|names| - 1];
      assert names == prefix + [last];
      UnlockOnce(prefix);
      CountIsOccurrences(names, last);
      var notices := Notices(names);
      assert notices[..|notices| - 1] == Notices(prefix);
    }
  }

  class ManagerItem {
    var itemCounts: map<string, int>
    /** The pickups so far, and the announcements made for them. */
    ghost var added: seq<string>
    ghost var notices: seq<Collected>

    ghost predicate Valid()
      reads this
    {
      itemCounts == CountsAfter(added) && notices == Notices(added)
    }

    constructor ()
      ensures Valid() && added == [] && itemCounts == map[]
    {
      itemCounts := map[];
      added := [];
      notices := [];
    }

    /** AddItem: count the pickup and announce the name with its new count. */
    method AddItem(itemName: string)
      requires Valid()
      modifies this
      ensures Valid() && added == old(added) + [itemName]
      ensures itemCounts == AddStep(old(itemCounts), itemName)
      ensures notices == old(notices) + [Collected(itemName, itemCounts[itemName])]
    {
      if itemName in itemCounts {
        itemCounts := itemCounts[itemName := itemCounts[itemName] + 1];
      } else {
        itemCounts := itemCounts[itemName := 1];
      }
      added := added + [itemName];
      assert added[..|added| - 1] == old(added);
      notices := notices + [Collected(itemName, itemCounts[itemName])];
    }

    /** GetItemCount: the number of pickups of the name so far. */
    method GetItemCount(itemName: string) returns (count: int)
      requires Valid()
      ensures count == multiset(added)[itemName]
      ensures itemName !in itemCounts ==> count == 0
    {
      CountIsOccurrences(added, itemName);
      count := if itemName in itemCounts then itemCounts[itemName] else 0;
    }
  }

  /** ManagerGame as a listener: it counts the times it unlocked the door. */
  class ManagerGame {
    var doorUnlocks: nat

    constructor ()
      ensures doorUnlocks == 0
    {
      doorUnlocks := 0;
    }

    method HandleItemCollected(itemName: string, count: int)
      modifies this
      ensures doorUnlocks == old(doorUnlocks) + (if Unlocks(Collected(itemName, count)) then 1 else 0)
    {
      if itemName == "Key" && count == 2 {
        doorUnlocks := doorUnlocks + 1;
      }
    }
  }
}
