/**
 * The hand-rolled min-priority queue of the planner (class `PriorityQueue`):
 * a list of (priority, item) pairs, stably sorted by priority on every pop.
 */
module Frontier {
  import opened Wrappers

  /** One queued pair; the source stores the tuple `(priority, data)`. */
  datatype Entry<T> = Entry(priority: int, item: T)

  /** Places `e` in front of the first entry whose priority is not below its own. */
  function Insert<T>(e: Entry<T>, s: seq<Entry<T>>): seq<Entry<T>>
  {
    if s == [] || e.priority <= s[0].priority then [e] + s
    else [s[0]] + Insert(e, s[1..])
  }

  /**
   * `list.sort(key=lambda x: x[0])`: ascending by priority and stable,
   * written as an insertion sort that keeps an earlier entry in front of
   * later entries of the same priority.
   */
  function SortByPriority<T>(s: seq<Entry<T>>): (r: seq<Entry<T>>)
    ensures multiset(r) == multiset(s)
    ensures |r| == |s|
  {
    if s == [] then []
    else
      var rest := SortByPriority(s[1..]);
      InsertPermutes(s[0], rest);
      assert s == [s[0]] + s[1..];
      assert |multiset(Insert(s[0], rest))| == |Insert(s[0], rest)|;
      Insert(s[0], rest)
  }

  ghost predicate Sorted<T>(s: seq<Entry<T>>)
  {
    forall i, j :: 0 <= i < j < |s| ==> s[i].priority <= s[j].priority
  }

  /** The entries of priority `k`, in the order they appear in `s`. */
  function AtPriority<T>(s: seq<Entry<T>>, k: int): seq<Entry<T>>
  {
    if s == [] then []
    else (if s[0].priority == k then [s[0]] else []) + AtPriority(s[1..], k)
  }

  /** `s[i]` has the smallest priority of `s` and no earlier entry shares it. */
  ghost predicate IsFirstMinimum<T>(s: seq<Entry<T>>, i: int)
  {
    && 0 <= i < |s|
    && (forall j :: 0 <= j < |s| ==> s[i].priority <= s[j].priority)
    && (forall j :: 0 <= j < i ==> s[i].priority < s[j].priority)
  }

  ghost predicate IsSuffix<T>(a: seq<T>, b: seq<T>)
  {
    |a| <= |b| && b[|b| - |a|..] == a
  }

  lemma {:induction false} InsertPermutes<T>(e: Entry<T>, s: seq<Entry<T>>)
    ensures multiset(Insert(e, s)) == multiset{e} + multiset(s)
  {
    if s != [] && e.priority > s[0].priority {
      InsertPermutes(e, s[1..]);
      assert s == [s[0]] + s[1..];
    }
  }

  /** Inserting an entry no lower than `b` into entries no lower than `b` keeps them so. */
  lemma {:induction false} InsertLowerBound<T>(e: Entry<T>, s: seq<Entry<T>>, b: int)
    requires b <= e.priority
    requires forall j :: 0 <= j < |s| ==> b <= s[j].priority
    ensures forall j :: 0 <= j < |Insert(e, s)| ==> b <= Insert(e, s)[j].priority
  {
    if s != [] && e.priority > s[0].priority {
      InsertLowerBound(e, s[1..], b);
    }
  }

  lemma {:induction false} InsertSorted<T>(e: Entry<T>, s: seq<Entry<T>>)
    requires Sorted(s)
    ensures Sorted(Insert(e, s))
  {
    var r := Insert(e, s);
    if s == [] || e.priority <= s[0].priority {
      forall i, j | 0 <= i < j < |r|
        ensures r[i].priority <= r[j].priority
      {
        if i > 0 {
          assert r[i] == s[i - 1] && r[j] == s[j - 1];
        } else {
          assert s[0].priority <= s[j - 1].priority;
        }
      }
    } else {
      var t := Insert(e, s[1..]);
      InsertSorted(e, s[1..]);
      InsertLowerBound(e, s[1..], s[0].priority);
      assert r == [s[0]] + t;
      forall i, j | 0 <= i < j < |r|
        ensures r[i].priority <= r[j].priority
      {
        if i > 0 {
          assert r[i] == t[i - 1] && r[j] == t[j - 1];
        }
      }
    }
  }

  /** Sorting orders the entries by ascending priority. */
  lemma {:induction false} SortSorted<T>(s: seq<Entry<T>>)
    ensures Sorted(SortByPriority(s))
  {
    if s != [] {
      SortSorted(s[1..]);
      InsertSorted(s[0], SortByPriority(s[1..]));
    }
  }

  lemma {:induction false} InsertAtPriority<T>(e: Entry<T>, s: seq<Entry<T>>, k: int)
    requires Sorted(s)
    ensures AtPriority(Insert(e, s), k) == AtPriority([e] + s, k)
  {
    if s != [] && e.priority > s[0].priority {
      InsertAtPriority(e, s[1..], k);
      assert ([e] + s)[1..] == s;
      assert ([e] + s[1..])[1..] == s[1..];
      assert s == [s[0]] + s[1..];
    }
  }

  /**
   * Sorting is stable: for every priority the entries of that priority keep
   * their relative order.
   */
  lemma {:induction false} SortStable<T>(s: seq<Entry<T>>, k: int)
    ensures AtPriority(SortByPriority(s), k) == AtPriority(s, k)
  {
    if s != [] {
      SortStable(s[1..], k);
      SortSorted(s[1..]);
      InsertAtPriority(s[0], SortByPriority(s[1..]), k);
      assert ([s[0]] + SortByPriority(s[1..]))[1..] == SortByPriority(s[1..]);
    }
  }

  /** The position `pop` takes its entry from: the first one of minimal priority. */
  function FirstMinimum<T>(s: seq<Entry<T>>): (i: nat)
    requires s != []
    ensures IsFirstMinimum(s, i)
  {
    if |s| == 1 then 0
    else
      var j := FirstMinimum(s[1..]) + 1;
      assert forall k :: 1 <= k < |s| ==> s[k] == s[1..][k - 1];
      if s[0].priority <= s[j].priority then 0 else j
  }

  /** The head of the sorted list is the entry at `FirstMinimum`. */
  lemma {:induction false} SortHead<T>(s: seq<Entry<T>>)
    requires s != []
    ensures SortByPriority(s)[0] == s[FirstMinimum(s)]
  {
    var rest := s[1..];
    if rest != [] {
      SortHead(rest);
      assert SortByPriority(s) == Insert(s[0], SortByPriority(rest));
    }
  }

  lemma {:induction false} AtPriorityAppend<T>(s: seq<Entry<T>>, e: Entry<T>, k: int)
    ensures AtPriority(s + [e], k) == AtPriority(s, k) + (if e.priority == k then [e] else [])
  {
    if s != [] {
      AtPriorityAppend(s[1..], e, k);
      assert (s + [e])[1..] == s[1..] + [e];
    }
  }

  class PriorityQueue<T(==)> {
    /** The queued pairs, in list order. */
    var data: seq<Entry<T>>
    /** Every pair ever put, oldest first. */
    ghost var log: seq<Entry<T>>

    /**
     * First in, first out among equal priorities: for every priority, the
     * queued entries of that priority are the most recently put ones of that
     * priority, in the order they were put.
     */
    ghost predicate Valid()
      reads this
    {
      forall k :: IsSuffix(AtPriority(data, k), AtPriority(log, k))
    }

    constructor ()
      ensures Valid()
      ensures data == [] && log == []
    {
      data := [];
      log := [];
    }

    /** `empty`: true exactly when no pair is queued. */
    method Empty() returns (b: bool)
      ensures b <==> data == []
    {
      if data != [] {
        return false;
      }
      return true;
    }

    /** `put`: appends one pair and changes nothing else. */
    method Put(item: T, priority: int)
      requires Valid()
      modifies this
      ensures Valid()
      ensures data == old(data) + [Entry(priority, item)]
      ensures log == old(log) + [Entry(priority, item)]
    {
      var e := Entry(priority, item);
      forall k
        ensures IsSuffix(AtPriority(data + [e], k), AtPriority(log + [e], k))
      {
        AtPriorityAppend(data, e, k);
        AtPriorityAppend(log, e, k);
        var a, b := AtPriority(data, k), AtPriority(log, k);
        assert (b + [e])[|b| - |a|..] == b[|b| - |a|..] + [e];
      }
      data := data + [e];
      log := log + [e];
    }

    /**
     * `pop`: `None` on an empty queue; otherwise sorts the list by priority
     * and removes and returns the head.
     */
    method Pop() returns (r: Option<T>)
      requires Valid()
      modifies this
      ensures Valid() && log == old(log)
      ensures old(data) == [] ==> r == None && data == []
      ensures old(data) != [] ==>
        var sorted := SortByPriority(old(data));
        r == Some(sorted[0].item) && data == sorted[1..]
      ensures old(data) != [] ==>
        var i := FirstMinimum(old(data));
        && r == Some(old(data)[i].item)
        && multiset(data) == multiset(old(data)) - multiset{old(data)[i]}
        && AtPriority(old(data), old(data)[i].priority) == [old(data)[i]] + AtPriority(data, old(data)[i].priority)
    {
      var isEmpty := Empty();
      if isEmpty {
        return None;
      }
      PopRemovesFirstMinimum(data);
      PopKeepsSuffixes(data, log);
      var sorted := SortByPriority(data);
      r := Some(sorted[0].item);
      data := sorted[1..];
    }
  }

  /** Taking the head off the sorted list keeps every priority class a suffix of the log's. */
  lemma PopKeepsSuffixes<T>(s: seq<Entry<T>>, log: seq<Entry<T>>)
    requires s != []
    requires forall k :: IsSuffix(AtPriority(s, k), AtPriority(log, k))
    ensures forall k :: IsSuffix(AtPriority(SortByPriority(s)[1..], k), AtPriority(log, k))
  {
    forall k
      ensures IsSuffix(AtPriority(SortByPriority(s)[1..], k), AtPriority(log, k))
    {
      RemoveHeadAtPriority(s, k);
      var a := AtPriority(s, k);
      assert IsSuffix(a, AtPriority(log, k));
    }
  }

  /** Removing the head of the sorted list removes it from its own priority class only. */
  lemma RemoveHeadAtPriority<T>(s: seq<Entry<T>>, k: int)
    requires s != []
    ensures var sorted := SortByPriority(s);
      AtPriority(s, k) == (if sorted[0].priority == k then [sorted[0]] else []) + AtPriority(sorted[1..], k)
  {
    SortStable(s, k);
  }

  /**
   * What `pop` takes from a non-empty list: its first entry of minimal
   * priority, which is also the first entry of that priority class; every
   * other entry stays.
   */
  lemma PopRemovesFirstMinimum<T>(s: seq<Entry<T>>)
    requires s != []
    ensures var sorted, i := SortByPriority(s), FirstMinimum(s);
      && |sorted| == |s|
      && sorted[0] == s[i]
      && multiset(sorted[1..]) == multiset(s) - multiset{s[i]}
      && AtPriority(s, s[i].priority) == [s[i]] + AtPriority(sorted[1..], s[i].priority)
  {
    var sorted := SortByPriority(s);
    SortHead(s);
    assert sorted == [sorted[0]] + sorted[1..];
    assert multiset(sorted) == multiset{sorted[0]} + multiset(sorted[1..]);
    RemoveHeadAtPriority(s, s[FirstMinimum(s)].priority);
  }
}
