/** The review step: how an officer's accept or reject rewrites a record,
    how the record to rewrite is found (by id from a button, by applicant from
    a slash command), and what the rewrite does to the pending queue. */
module Review {
  import opened Records
  import opened Queue

  /** The rejection reason recorded when the officer gives none. */
  const NoReasonGiven: string := "No reason provided."

  /** The assignments an accept or a reject makes on the found record:
      status, processedBy and processedAt are set together, whatever the
      record's current status is; nothing else is touched. */
  function Processed(a: Application, s: Status, officer: string, now: string): (b: Application)
    ensures b.status == s && b.processedBy == Some(officer) && b.processedAt == Some(now)
    ensures SameSubmission(a, b) && b.rejectionReason == a.rejectionReason
  {
    a.(status := s, processedBy := Some(officer), processedAt := Some(now))
  }

  /** The reason `/reject` records: the given option value, or the default
      when it is absent or empty (both are falsy for `||`). */
  function RejectionReason(given: Option<string>): (r: string)
    ensures r != ""
    ensures given.Some? && given.value != "" ==> r == given.value
    ensures given == None || given == Some("") ==> r == NoReasonGiven
  {
    if given.Some? && given.value != "" then given.value else NoReasonGiven
  }

  /** The record a by-applicant command acts on: the first record of that
      user whose status is pending, or -1. */
  function IndexOfPendingFor(apps: seq<Application>, user: string): (i: int)
    ensures -1 <= i < |apps|
    ensures i == -1 <==> forall k :: 0 <= k < |apps| ==> !(apps[k].userId == user && IsPending(apps[k]))
    ensures 0 <= i ==> apps[i].userId == user && IsPending(apps[i])
    ensures forall k :: 0 <= k < i ==> !(apps[k].userId == user && IsPending(apps[k]))
  {
    FindIndex(apps, (a: Application) => a.userId == user && IsPending(a))
  }

  /** How many pending records one applicant has. */
  function PendingCountFor(apps: seq<Application>, user: string): nat {
    if apps == [] then 0
    else (if apps[0].userId == user && IsPending(apps[0]) then 1 else 0) + PendingCountFor(apps[1..], user)
  }

  /** A review leaves every submitted field of every record as it was and
      never removes a record. */
  ghost predicate KeepsSubmissions(before: seq<Application>, after: seq<Application>) {
    |before| <= |after| && forall k :: 0 <= k < |before| ==> SameSubmission(before[k], after[k])
  }

  lemma {:induction false} PendingCountAppend(a: seq<Application>, b: seq<Application>, user: string)
    ensures PendingCountFor(a + b, user) == PendingCountFor(a, user) + PendingCountFor(b, user)
  {
    if a == [] {
      assert a + b == b;
    } else {
      assert (a + b)[1..] == a[1..] + b;
      PendingCountAppend(a[1..], b, user);
    }
  }

  /** A by-applicant command finds nothing exactly when the applicant has no
      pending record. */
  lemma {:induction false} NoPendingForUser(apps: seq<Application>, user: string)
    ensures IndexOfPendingFor(apps, user) == -1 <==> PendingCountFor(apps, user) == 0
  {
    if apps != [] {
      NoPendingForUser(apps[1..], user);
      if !(apps[0].userId == user && IsPending(apps[0])) {
        if PendingCountFor(apps[1..], user) == 0 {
          assert forall k :: 1 <= k < |apps| ==> !(apps[k].userId == user && IsPending(apps[k])) by {
            forall k | 1 <= k < |apps| ensures !(apps[k].userId == user && IsPending(apps[k])) {
              assert apps[k] == apps[1..][k - 1];
            }
          }
        } else {
          var j := IndexOfPendingFor(apps[1..], user);
          assert apps[1..][j] == apps[j + 1];
        }
      }
    }
  }

  /** Replacing the record at index i by a record that is not pending: the
      queue loses that record if it was pending and is otherwise unchanged,
      and the order of the remaining pending records is kept. Overwriting an
      already accepted or rejected record leaves the queue as it was. */
  lemma Retire(apps: seq<Application>, i: nat, b: Application)
    requires i < |apps| && !IsPending(b)
    ensures PendingList(apps[i := b]) == PendingList(apps[..i]) + PendingList(apps[i + 1..])
    ensures PendingList(apps) == PendingList(apps[..i]) + (if IsPending(apps[i]) then [apps[i]] else []) + PendingList(apps[i + 1..])
    ensures !IsPending(apps[i]) ==> PendingList(apps[i := b]) == PendingList(apps)
    ensures IsPending(apps[i]) ==> |PendingList(apps[i := b])| + 1 == |PendingList(apps)|
  {
    var after := apps[i := b];
    assert after[..i] == apps[..i] && after[i + 1..] == apps[i + 1..];
    PendingSplit(apps, i);
    PendingSplit(after, i);
    var left, right := PendingList(apps[..i]), PendingList(apps[i + 1..]);
    assert left + [] + right == left + right;
  }

  /** The same replacement seen from the applicant: their pending count drops
      by one if the replaced record was theirs and pending, else it stays. */
  lemma RetireCount(apps: seq<Application>, i: nat, b: Application, user: string)
    requires i < |apps| && !IsPending(b)
    ensures PendingCountFor(apps[i := b], user) + (if apps[i].userId == user && IsPending(apps[i]) then 1 else 0)
            == PendingCountFor(apps, user)
  {
    var before, rest := apps[..i], apps[i + 1..];
    var after := apps[i := b];
    assert after[..i] == before && after[i + 1..] == rest;
    SplitAt(apps, i);
    SplitAt(after, i);
    PendingCountAppend(before, [apps[i]] + rest, user);
    PendingCountAppend(before, [b] + rest, user);
    assert ([apps[i]] + rest)[1..] == rest;
    assert ([b] + rest)[1..] == rest;
  }

  /** Replacing the record `/next` shows by a reviewed one advances the
      queue by exactly one: the new queue is the old one without its head. */
  lemma ReviewingNextAdvancesQueue(apps: seq<Application>, b: Application)
    requires PendingList(apps) != [] && !IsPending(b)
    ensures var i := FindIndex(apps, IsPending);
      0 <= i < |apps| && PendingList(apps[i := b]) == PendingList(apps)[1..]
  {
    NextSplitsQueue(apps);
    var i := FindIndex(apps, IsPending);
    Retire(apps, i, b);
    assert PendingList(apps)[1..] == PendingList(apps[i + 1..]);
  }

  /** What a review does to the list and what the handler reports. */
  datatype Reviewed = Reviewed(apps: seq<Application>, result: Result<Application>)

  /** Accept or reject from a button: the first record with the id gets the
      verdict, the officer and the time, whatever its current status; an
      unknown id changes nothing and is reported as not found. */
  function ReviewById(apps: seq<Application>, id: string, verdict: Status, officer: string, now: string): (out: Reviewed)
    requires verdict != Pending
    ensures out.result.Err? <==> forall k :: 0 <= k < |apps| ==> apps[k].id != id
    ensures out.result.Err? ==> out.result == Err(NotFound) && out.apps == apps
    ensures out.result.Ok? ==>
      var i := IndexOfId(apps, id);
      && 0 <= i
      && |out.apps| == |apps|
      && (forall k :: 0 <= k < |apps| && k != i ==> out.apps[k] == apps[k])
      && out.apps[i] == out.result.value
      && out.result.value.status == verdict
      && out.result.value.processedBy == Some(officer)
      && out.result.value.processedAt == Some(now)
      && SameSubmission(apps[i], out.result.value)
      && out.result.value.rejectionReason == apps[i].rejectionReason
    ensures KeepsSubmissions(apps, out.apps)
  {
    var i := IndexOfId(apps, id);
    if i == -1 then Reviewed(apps, Err(NotFound))
    else
      var b := Processed(apps[i], verdict, officer, now);
      Reviewed(apps[i := b], Ok(b))
  }

  /** Accept or reject from a slash command: the first pending record of the
      applicant gets the verdict, the officer and the time, and the given
      reason when one is to be recorded; with no pending record nothing
      changes. */
  function ReviewByApplicant(apps: seq<Application>, user: string, verdict: Status, officer: string, now: string, reason: Option<string>): (out: Reviewed)
    requires verdict != Pending
    ensures out.result.Err? <==> PendingCountFor(apps, user) == 0
    ensures out.result.Err? ==> out.result == Err(NoPendingApplication) && out.apps == apps
    ensures out.result.Ok? ==>
      var i := IndexOfPendingFor(apps, user);
      && 0 <= i
      && |out.apps| == |apps|
      && (forall k :: 0 <= k < |apps| && k != i ==> out.apps[k] == apps[k])
      && out.apps[i] == out.result.value
      && apps[i].userId == user && IsPending(apps[i])
      && out.result.value.status == verdict
      && out.result.value.processedBy == Some(officer)
      && out.result.value.processedAt == Some(now)
      && SameSubmission(apps[i], out.result.value)
      && out.result.value.rejectionReason == (if reason.Some? then reason else apps[i].rejectionReason)
    ensures KeepsSubmissions(apps, out.apps)
    ensures PendingCountFor(out.apps, user) + (if out.result.Ok? then 1 else 0) == PendingCountFor(apps, user)
    ensures |PendingList(out.apps)| + (if out.result.Ok? then 1 else 0) == |PendingList(apps)|
  {
    NoPendingForUser(apps, user);
    var i := IndexOfPendingFor(apps, user);
    if i == -1 then Reviewed(apps, Err(NoPendingApplication))
    else
      var p := Processed(apps[i], verdict, officer, now);
      var b := if reason.Some? then p.(rejectionReason := reason) else p;
      RetireCount(apps, i, b, user);
      Retire(apps, i, b);
      Reviewed(apps[i := b], Ok(b))
  }

  /** A button review of a record that is still pending removes it from the
      queue; one of a record already accepted or rejected leaves the queue as
      it was. */
  lemma ReviewByIdQueue(apps: seq<Application>, id: string, verdict: Status, officer: string, now: string)
    requires verdict != Pending
    ensures var out := ReviewById(apps, id, verdict, officer, now);
      var i := IndexOfId(apps, id);
      && (i == -1 || !IsPending(apps[i]) ==> PendingList(out.apps) == PendingList(apps))
      && (i != -1 && IsPending(apps[i]) ==> |PendingList(out.apps)| + 1 == |PendingList(apps)|)
  {
    var i := IndexOfId(apps, id);
    if i != -1 {
      Retire(apps, i, Processed(apps[i], verdict, officer, now));
    }
  }

  /** The button handlers have no already-processed guard: after one officer
      accepts a record, a second officer's reject of the same id succeeds
      too and overwrites the verdict, the officer and the time. */
  lemma SecondReviewOverwrites(apps: seq<Application>, id: string, officer1: string, now1: string, officer2: string, now2: string)
    requires IndexOfId(apps, id) != -1
    ensures var first := ReviewById(apps, id, Accepted, officer1, now1);
      var second := ReviewById(first.apps, id, Rejected, officer2, now2);
      && first.result.Ok? && second.result.Ok?
      && second.apps[IndexOfId(apps, id)].status == Rejected
      && second.apps[IndexOfId(apps, id)].processedBy == Some(officer2)
      && |second.apps| == |apps|
  {
  }

  /** The button review of the record `/next` shows, reached through its id:
      when no earlier record carries that id, the queue loses exactly its
      head. Ids come from the clock and may repeat; an earlier record with the
      same id is the one the lookup rewrites instead; that earlier record is
      necessarily processed, so the queue stays as it was. */
  lemma ReviewNextById(apps: seq<Application>, verdict: Status, officer: string, now: string)
    requires verdict != Pending && PendingList(apps) != []
    ensures var next := PendingList(apps)[0];
      var out := ReviewById(apps, next.id, verdict, officer, now);
      && out.result.Ok?
      && (IndexOfId(apps, next.id) == FindIndex(apps, IsPending) ==> PendingList(out.apps) == PendingList(apps)[1..])
      && (IndexOfId(apps, next.id) != FindIndex(apps, IsPending) ==> PendingList(out.apps) == PendingList(apps))
  {
    NextSplitsQueue(apps);
    var i := FindIndex(apps, IsPending);
    var next := PendingList(apps)[0];
    assert next == apps[i];
    var j := IndexOfId(apps, next.id);
    var b := Processed(apps[j], verdict, officer, now);
    if j == i {
      ReviewingNextAdvancesQueue(apps, b);
    } else {
      assert j < i;
      Retire(apps, j, b);
    }
  }
}
