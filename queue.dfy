/** Read-only views of the `applications` list: the pending filter, the queue
    position shown to officers for a new application, the record the
    `/next` command shows and the page the `/applications` command lists.
    All of them keep the order of the list, which is submission order. */
module Queue {
  import opened Records

  /** Number of records the `/applications` listing shows. */
  const PageSize: nat := 10

  /** Array.prototype.findIndex: the first index whose element satisfies
      `p`, or -1 when none does. */
  function FindIndex<T>(s: seq<T>, p: T -> bool): (i: int)
    ensures -1 <= i < |s|
    ensures i == -1 ==> forall k :: 0 <= k < |s| ==> !p(s[k])
    ensures 0 <= i ==> p(s[i]) && forall k :: 0 <= k < i ==> !p(s[k])
  {
    if s == [] then -1
    else if p(s[0]) then 0
    else
      var j := FindIndex(s[1..], p);
      if j == -1 then -1 else j + 1
  }

  /** The pending filter: the pending records, in list order. */
  function PendingList(apps: seq<Application>): (p: seq<Application>)
    ensures |p| <= |apps|
    ensures forall k :: 0 <= k < |p| ==> IsPending(p[k])
  {
    if apps == [] then []
    else if IsPending(apps[0]) then [apps[0]] + PendingList(apps[1..])
    else PendingList(apps[1..])
  }

  /** The queue holds exactly the pending records of the list. */
  lemma {:induction false} PendingMembers(apps: seq<Application>)
    ensures forall a :: a in PendingList(apps) <==> a in apps && IsPending(a)
  {
    if apps != [] {
      PendingMembers(apps[1..]);
      assert forall a :: a in apps <==> a == apps[0] || a in apps[1..];
    }
  }

  /** Index of the first record with the given id (findIndex by id), or -1. */
  function IndexOfId(apps: seq<Application>, id: string): (i: int)
    ensures -1 <= i < |apps|
    ensures i == -1 <==> forall k :: 0 <= k < |apps| ==> apps[k].id != id
    ensures 0 <= i ==> apps[i].id == id && forall k :: 0 <= k < i ==> apps[k].id != id
  {
    FindIndex(apps, (a: Application) => a.id == id)
  }

  /** The queue position reported for an application: one more than the
      findIndex of its id among the pending records, hence 0 when no pending
      record carries that id. */
  function Position(apps: seq<Application>, id: string): (n: int)
    ensures 0 <= n <= |PendingList(apps)|
    ensures n == 0 <==> forall a :: a in apps && IsPending(a) ==> a.id != id
    ensures 0 < n ==> PendingList(apps)[n - 1].id == id
    ensures forall k :: 0 <= k < n - 1 ==> PendingList(apps)[k].id != id
  {
    var p := PendingList(apps);
    var i := IndexOfId(p, id);
    PendingMembers(apps);
    assert i == -1 ==> forall a :: a in p ==> a.id != id;
    i + 1
  }

  /** The record `/next` shows: the first pending record in list order. */
  function NextApplication(apps: seq<Application>): (next: Option<Application>)
    ensures next == None <==> forall k :: 0 <= k < |apps| ==> !IsPending(apps[k])
    ensures next.Some? ==> next.value in apps && IsPending(next.value)
  {
    var i := FindIndex(apps, IsPending);
    if i == -1 then None else Some(apps[i])
  }

  /** One line of the `/applications` listing, numbered from 1. */
  datatype ListingEntry = ListingEntry(number: nat, app: Application)

  /** What `/applications` replies to an officer: either that nothing is
      pending, or the number of pending records, the first PageSize of them
      and the footer count of those not shown. */
  datatype QueueView =
    | NoPendingApplications
    | QueuePage(total: nat, entries: seq<ListingEntry>, more: Option<nat>)

  function Numbered(s: seq<Application>): (e: seq<ListingEntry>)
    ensures |e| == |s|
    ensures forall k :: 0 <= k < |s| ==> e[k] == ListingEntry(k + 1, s[k])
  {
    seq(|s|, k requires 0 <= k < |s| => ListingEntry(k + 1, s[k]))
  }

  function Min(x: nat, y: nat): nat {
    if x < y then x else y
  }

  /** The `/applications` listing. */
  function ViewQueue(apps: seq<Application>): (v: QueueView)
    ensures v == NoPendingApplications <==> forall a :: a in apps ==> !IsPending(a)
    ensures v.QueuePage? ==>
      && v.total == |PendingList(apps)|
      && |v.entries| == Min(PageSize, v.total)
      && (forall k :: 0 <= k < |v.entries| ==> v.entries[k] == ListingEntry(k + 1, PendingList(apps)[k]))
      && (v.more.Some? <==> v.total > PageSize)
      && (v.more.Some? ==> v.more.value + PageSize == v.total)
  {
    var p := PendingList(apps);
    PendingMembers(apps);
    if |p| == 0 then
      assert forall a :: a in apps ==> !IsPending(a);
      NoPendingApplications
    else
      assert p[0] in apps;
      QueuePage(|p|, Numbered(p[..Min(PageSize, |p|)]), if |p| > PageSize then Some(|p| - PageSize) else None)
  }

  /** Filtering distributes over concatenation: records appended later are
      queued after every record already in the list, and the relative order
      of existing pending records never changes. */
  lemma {:induction false} PendingAppend(a: seq<Application>, b: seq<Application>)
    ensures PendingList(a + b) == PendingList(a) + PendingList(b)
  {
    if a == [] {
      assert a + b == b;
    } else {
      assert (a + b)[1..] == a[1..] + b;
      PendingAppend(a[1..], b);
    }
  }

  /** A list with no pending record has an empty queue. */
  lemma {:induction false} PendingNone(apps: seq<Application>)
    requires forall k :: 0 <= k < |apps| ==> !IsPending(apps[k])
    ensures PendingList(apps) == []
  {
    if apps != [] {
      PendingNone(apps[1..]);
    }
  }

  /** The position computed right after appending a pending application lies
      between 1 and the new queue length; when no earlier pending record has
      the same id it is exactly the new queue length, i.e. the application is
      last in the queue. */
  lemma PositionOfNewApplication(apps: seq<Application>, app: Application)
    requires IsPending(app)
    ensures 1 <= Position(apps + [app], app.id) <= |PendingList(apps + [app])|
    ensures (forall a :: a in apps && IsPending(a) ==> a.id != app.id) ==>
              Position(apps + [app], app.id) == |PendingList(apps)| + 1 == |PendingList(apps + [app])|
  {
    PendingAppend(apps, [app]);
    assert PendingList([app]) == [app];
    var p := PendingList(apps);
    var q := PendingList(apps + [app]);
    PendingMembers(apps);
    assert q == p + [app];
    assert app in apps + [app];
    if forall a :: a in apps && IsPending(a) ==> a.id != app.id {
      forall k | 0 <= k < |p| ensures q[k].id != app.id {
        assert q[k] == p[k] && p[k] in p;
      }
    }
  }

  /** The `/next` record is the head of the pending queue, and there is none
      exactly when the queue is empty. */
  lemma {:induction false} NextIsQueueHead(apps: seq<Application>)
    ensures NextApplication(apps) == if PendingList(apps) == [] then None else Some(PendingList(apps)[0])
  {
    if apps != [] && !IsPending(apps[0]) {
      NextIsQueueHead(apps[1..]);
      var i := FindIndex(apps[1..], IsPending);
      assert FindIndex(apps, IsPending) == if i == -1 then -1 else i + 1;
    }
  }

  /** The index of the `/next` record in the list; every record before it is
      processed and removing it from the queue leaves the rest in order. */
  lemma NextSplitsQueue(apps: seq<Application>)
    requires PendingList(apps) != []
    ensures var i := FindIndex(apps, IsPending);
      && 0 <= i < |apps|
      && NextApplication(apps) == Some(apps[i])
      && PendingList(apps[..i]) == []
      && PendingList(apps) == [apps[i]] + PendingList(apps[i + 1..])
  {
    var i := FindIndex(apps, IsPending);
    NextExists(apps);
    PendingNone(apps[..i]);
    PendingSplit(apps, i);
    var tail := PendingList(apps[i + 1..]);
    assert [] + [apps[i]] + tail == [apps[i]] + tail;
  }

  /** A non-empty queue means the search for a pending record succeeds. */
  lemma NextExists(apps: seq<Application>)
    requires PendingList(apps) != []
    ensures 0 <= FindIndex(apps, IsPending)
  {
    var p := PendingList(apps);
    PendingMembers(apps);
    assert p[0] in apps;
    var j :| 0 <= j < |apps| && apps[j] == p[0];
    assert IsPending(apps[j]);
  }

  /** A list is the part before an index, the element there and the rest. */
  lemma SplitAt(s: seq<Application>, i: nat)
    requires i < |s|
    ensures s == s[..i] + ([s[i]] + s[i + 1..])
  {
  }

  /** The filter of a list with a first element. */
  lemma PendingCons(a: Application, rest: seq<Application>)
    ensures PendingList([a] + rest) == (if IsPending(a) then [a] else []) + PendingList(rest)
  {
    assert ([a] + rest)[1..] == rest;
  }

  /** The queue of a list, split around one of its records. */
  lemma PendingSplit(apps: seq<Application>, i: nat)
    requires i < |apps|
    ensures PendingList(apps) == PendingList(apps[..i]) + (if IsPending(apps[i]) then [apps[i]] else []) + PendingList(apps[i + 1..])
  {
    var before, rest := apps[..i], apps[i + 1..];
    var head := if IsPending(apps[i]) then [apps[i]] else [];
    SplitAt(apps, i);
    calc {
      PendingList(apps);
      PendingList(before + ([apps[i]] + rest));
      { PendingAppend(before, [apps[i]] + rest); }
      PendingList(before) + PendingList([apps[i]] + rest);
      { PendingCons(apps[i], rest); }
      PendingList(before) + (head + PendingList(rest));
      PendingList(before) + head + PendingList(rest);
    }
  }
}
