/**
 * The priority queue of shapes: a multiset of (shape, priority) entries with
 * insertion and extraction of some minimum-priority entry. Which of several
 * entries of equal priority is extracted is left open.
 */
module DrawQueue {
  import opened Shapes

  datatype Entry = Entry(shape: BaseShape, priority: int)

  /** The position of an entry of least priority. */
  method MinIndex(s: seq<Entry>) returns (k: nat)
    requires |s| > 0
    ensures k < |s|
    ensures forall i :: 0 <= i < |s| ==> s[k].priority <= s[i].priority
  {
    k := 0;
    var i := 1;
    while i < |s|
      invariant 1 <= i <= |s|
      invariant k < i
      invariant forall j :: 0 <= j < i ==> s[k].priority <= s[j].priority
    {
      if s[i].priority < s[k].priority {
        k := i;
      }
      i := i + 1;
    }
  }

  class ShapeQueue {
    var entries: seq<Entry>

    constructor ()
      ensures Contents() == multiset{}
    {
      entries := [];
    }

    /** The queue's abstract value: the entries it holds, in no order. */
    function Contents(): multiset<Entry>
      reads this
    {
      multiset(entries)
    }

    function Count(): (n: nat)
      reads this
      ensures n == |Contents()|
    {
      |entries|
    }

    method Enqueue(shape: BaseShape, priority: int)
      modifies this
      ensures Contents() == old(Contents()) + multiset{Entry(shape, priority)}
    {
      entries := entries + [Entry(shape, priority)];
    }

    /** Removes and returns an entry whose priority is no greater than any other's. */
    method Dequeue() returns (e: Entry)
      requires Count() > 0
      modifies this
      ensures e in old(Contents())
      ensures forall x :: x in old(Contents()) ==> e.priority <= x.priority
      ensures Contents() == old(Contents()) - multiset{e}
    {
      var k := MinIndex(entries);
      e := entries[k];
      assert entries == entries[..k] + [e] + entries[k + 1..];
      entries := entries[..k] + entries[k + 1..];
    }
  }
}
