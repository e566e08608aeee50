/** The bot's mutable state and its event handlers, reduced to what they do
    to that state: the `applications` list (appended to on submission,
    records rewritten in place on review, written out whole after every
    change), the intake map keyed by user id, and the replies the handlers
    choose between. Officer status, ids, user names and timestamps arrive as
    parameters. */
module Bot {
  import opened Records
  import opened Queue
  import opened Review
  import opened Buttons

  /** What submitting part two reports: the new record and the queue
      position shown to the officers. */
  datatype Receipt = Receipt(app: Application, position: int)

  class ApplicationBot {
    /** The in-memory `applications` list, in submission order. */
    var applications: seq<Application>
    /** The intake map: one entry per user who has run `/apply`. */
    var intake: map<string, Intake>
    /** The list as last written to the data file. */
    var saved: seq<Application>

    /** The file has been written with the in-memory list. */
    ghost predicate Synced()
      reads this
    {
      saved == applications
    }

    /** Start-up with the list read from the data file. */
    constructor (loaded: seq<Application>)
      ensures applications == loaded && saved == loaded && intake == map[]
      ensures Synced()
    {
      applications := loaded;
      saved := loaded;
      intake := map[];
    }

    /** saveApplications: the whole list replaces the file's content. */
    method Save()
      modifies this`saved
      ensures Synced()
    {
      saved := applications;
    }

    /** `/apply`: a fresh intake entry replaces whatever the user had (last
        write wins); the list is untouched. */
    method StartApplication(user: string)
      modifies this`intake
      ensures intake == old(intake)[user := Intake(None)]
      ensures user in intake && intake[user].data == None
    {
      intake := intake[user := Intake(None)];
    }

    /** Submitting the first modal: its five answers go into the user's
        existing entry; without an entry the handler fails and nothing
        changes. */
    method SubmitPartOne(user: string, answers: PartOne) returns (r: Result<Intake>)
      modifies this`intake
      ensures user in old(intake) ==>
        r == Ok(Intake(Some(answers))) && intake == old(intake)[user := Intake(Some(answers))]
      ensures user !in old(intake) ==> r == Err(MissingIntake) && intake == old(intake)
    {
      if user !in intake {
        return Err(MissingIntake);
      }
      var entry := intake[user].(data := Some(answers));
      intake := intake[user := entry];
      r := Ok(entry);
    }

    /** Submitting the second modal: exactly one pending record is appended,
        built from the user's entry and the `pvp` answer, the list is saved,
        and the entry stays in the map. The reported position is the new
        record's place in the queue. */
    method SubmitPartTwo(user: string, username: string, id: string, timestamp: string, pvp: string)
      returns (r: Result<Receipt>)
      modifies this`applications, this`saved
      ensures intake == old(intake)
      ensures user !in intake ==>
        r == Err(MissingIntake) && applications == old(applications) && saved == old(saved)
      ensures user in intake ==>
        var app := Application(id, user, username, timestamp, Pending, Answers(intake[user].data, pvp), None, None, None);
        && applications == old(applications) + [app]
        && Synced()
        && r.Ok? && r.value.app == app
        && r.value.position == Position(applications, id)
        && PendingList(applications) == PendingList(old(applications)) + [app]
        && 1 <= r.value.position <= |PendingList(applications)|
        && ((forall a :: a in old(applications) && IsPending(a) ==> a.id != id) ==>
              r.value.position == |PendingList(applications)|)
    {
      if user !in intake {
        return Err(MissingIntake);
      }
      var app := Application(id, user, username, timestamp, Pending, Answers(intake[user].data, pvp), None, None, None);
      PositionOfNewApplication(applications, app);
      PendingAppend(applications, [app]);
      assert PendingList([app]) == [app];
      applications := applications + [app];
      Save();
      r := Ok(Receipt(app, Position(applications, id)));
    }

    /** `/applications`: officers get the listing of the current queue. */
    method ViewApplicationQueue(isOfficer: bool) returns (r: Result<QueueView>)
      ensures !isOfficer <==> r == Err(PermissionDenied)
      ensures isOfficer ==> r == Ok(ViewQueue(applications))
    {
      if !isOfficer {
        return Err(PermissionDenied);
      }
      r := Ok(ViewQueue(applications));
    }

    /** `/next`: officers get the head of the queue, if there is one. */
    method ProcessNextApplication(isOfficer: bool) returns (r: Result<Application>)
      ensures !isOfficer ==> r == Err(PermissionDenied)
      ensures isOfficer && PendingList(applications) == [] ==> r == Err(NoPendingApplication)
      ensures isOfficer && PendingList(applications) != [] ==> r == Ok(PendingList(applications)[0])
    {
      if !isOfficer {
        return Err(PermissionDenied);
      }
      NextIsQueueHead(applications);
      match NextApplication(applications)
      case None => r := Err(NoPendingApplication);
      case Some(app) => r := Ok(app);
    }

    /** Shared tail of the four review handlers: commit a successful review and save. */
    method ApplyReview(out: Reviewed)
      modifies this`applications, this`saved
      ensures applications == if out.result.Ok? then out.apps else old(applications)
      ensures if out.result.Ok? then Synced() else saved == old(saved)
    {
      if out.result.Ok? {
        applications := out.apps;
        Save();
      }
    }

    /** The Accept button: see ReviewById. The list is saved exactly when the id is found. */
    method AcceptApplicationById(id: string, officer: string, now: string) returns (r: Result<Application>)
      modifies this`applications, this`saved
      ensures Reviewed(applications, r) == ReviewById(old(applications), id, Accepted, officer, now)
      ensures if r.Ok? then Synced() else saved == old(saved)
    {
      var out := ReviewById(applications, id, Accepted, officer, now);
      ApplyReview(out);
      r := out.result;
    }

    /** The Reject button: see ReviewById; no reason is recorded. */
    method RejectApplicationById(id: string, officer: string, now: string) returns (r: Result<Application>)
      modifies this`applications, this`saved
      ensures Reviewed(applications, r) == ReviewById(old(applications), id, Rejected, officer, now)
      ensures if r.Ok? then Synced() else saved == old(saved)
    {
      var out := ReviewById(applications, id, Rejected, officer, now);
      ApplyReview(out);
      r := out.result;
    }

    /** A button press: only officers may act; the custom id selects accept,
        reject or a screenshot request, which only looks the record up. */
    method PressButton(customId: string, isOfficer: bool, officer: string, now: string) returns (r: Result<Application>)
      modifies this`applications, this`saved
      ensures !isOfficer ==> r == Err(PermissionDenied) && applications == old(applications) && saved == old(saved)
      ensures isOfficer ==> match ParseButtonId(customId)
        case None => r == Err(UnknownButton) && applications == old(applications) && saved == old(saved)
        case Some(AcceptButton(id)) =>
          && Reviewed(applications, r) == ReviewById(old(applications), id, Accepted, officer, now)
          && (if r.Ok? then Synced() else saved == old(saved))
        case Some(RejectButton(id)) =>
          && Reviewed(applications, r) == ReviewById(old(applications), id, Rejected, officer, now)
          && (if r.Ok? then Synced() else saved == old(saved))
        case Some(ScreenshotButton(id)) =>
          && applications == old(applications) && saved == old(saved)
          && (r == Err(NotFound) <==> forall k :: 0 <= k < |applications| ==> applications[k].id != id)
          && r == (if IndexOfId(applications, id) == -1 then Err(NotFound) else Ok(applications[IndexOfId(applications, id)]))
      ensures r.Ok? && applications != old(applications) ==> Synced()
    {
      if !isOfficer {
        return Err(PermissionDenied);
      }
      match ParseButtonId(customId)
      case None =>
        r := Err(UnknownButton);
      case Some(AcceptButton(id)) =>
        r := AcceptApplicationById(id, officer, now);
      case Some(RejectButton(id)) =>
        r := RejectApplicationById(id, officer, now);
      case Some(ScreenshotButton(id)) =>
        var i := IndexOfId(applications, id);
        r := if i == -1 then Err(NotFound) else Ok(applications[i]);
    }

    /** `/accept user`: see ReviewByApplicant; only officers may act. */
    method AcceptApplicant(isOfficer: bool, user: string, officer: string, now: string) returns (r: Result<Application>)
      modifies this`applications, this`saved
      ensures !isOfficer ==> r == Err(PermissionDenied) && applications == old(applications) && saved == old(saved)
      ensures isOfficer ==>
        Reviewed(applications, r) == ReviewByApplicant(old(applications), user, Accepted, officer, now, None)
      ensures if r.Ok? then Synced() else saved == old(saved)
    {
      if !isOfficer {
        return Err(PermissionDenied);
      }
      var out := ReviewByApplicant(applications, user, Accepted, officer, now, None);
      ApplyReview(out);
      r := out.result;
    }

    /** `/reject user [reason]`: see ReviewByApplicant; the recorded reason
        is the given one or the default. */
    method RejectApplicant(isOfficer: bool, user: string, reason: Option<string>, officer: string, now: string)
      returns (r: Result<Application>)
      modifies this`applications, this`saved
      ensures !isOfficer ==> r == Err(PermissionDenied) && applications == old(applications) && saved == old(saved)
      ensures isOfficer ==>
        Reviewed(applications, r)
          == ReviewByApplicant(old(applications), user, Rejected, officer, now, Some(RejectionReason(reason)))
      ensures if r.Ok? then Synced() else saved == old(saved)
    {
      if !isOfficer {
        return Err(PermissionDenied);
      }
      var out := ReviewByApplicant(applications, user, Rejected, officer, now, Some(RejectionReason(reason)));
      ApplyReview(out);
      r := out.result;
    }
  }

  /** One applicant goes through `/apply`, the first modal (IGN "Bas") and
      the second modal (PvP "yes"): the list then holds exactly one pending
      record with both parts' answers, first in the queue. */
  method IntakeScenario() returns (apps: seq<Application>, position: int)
    ensures |apps| == 1 && apps[0].userId == "A" && apps[0].status == Pending
    ensures apps[0].data == Answers(Some(PartOne("Bas", "Sword", "3000", "4", "yes")), "yes")
    ensures position == 1
  {
    var bot := new ApplicationBot([]);
    bot.StartApplication("A");
    var one := bot.SubmitPartOne("A", PartOne("Bas", "Sword", "3000", "4", "yes"));
    var two := bot.SubmitPartTwo("A", "bas", "1", "t0", "yes");
    apps, position := bot.applications, two.value.position;
  }

  /** Two officers press Accept and then Reject on the same application's
      message: both presses succeed and the second verdict is the one kept. */
  method ReviewRaceScenario() returns (first: Result<Application>, second: Result<Application>, queue: seq<Application>)
    ensures first.Ok? && first.value.status == Accepted && first.value.processedBy == Some("R1")
    ensures second.Ok? && second.value.status == Rejected && second.value.processedBy == Some("R2")
    ensures queue == []
  {
    var bot := new ApplicationBot([]);
    bot.StartApplication("A");
    var one := bot.SubmitPartOne("A", PartOne("Bas", "Sword", "3000", "4", "yes"));
    var two := bot.SubmitPartTwo("A", "bas", "1", "t0", "yes");
    ParseButtonIdRoundTrip(AcceptButton("1"));
    ParseButtonIdRoundTrip(RejectButton("1"));
    assert |bot.applications| == 1 && bot.applications[0].id == "1";
    assert IndexOfId(bot.applications, "1") == 0;
    first := bot.PressButton(ButtonId(AcceptButton("1")), true, "R1", "t1");
    assert |bot.applications| == 1 && bot.applications[0] == first.value;
    assert IndexOfId(bot.applications, "1") == 0;
    second := bot.PressButton(ButtonId(RejectButton("1")), true, "R2", "t2");
    assert |bot.applications| == 1 && bot.applications[0] == second.value;
    PendingNone(bot.applications);
    queue := PendingList(bot.applications);
  }

  /** Part two without a prior `/apply` fails and appends nothing; after a
      second `/apply` between the two parts, the fresh entry has no part-one
      answers and the record is built with the PvP answer alone. */
  method RestartedIntakeScenario() returns (early: Result<Receipt>, late: Result<Receipt>, count: nat)
    ensures early == Err(MissingIntake)
    ensures late.Ok? && late.value.app.data == Answers(None, "yes")
    ensures count == 1
  {
    var bot := new ApplicationBot([]);
    early := bot.SubmitPartTwo("A", "bas", "1", "t0", "yes");
    bot.StartApplication("A");
    var one := bot.SubmitPartOne("A", PartOne("Bas", "Sword", "3000", "4", "yes"));
    bot.StartApplication("A");
    late := bot.SubmitPartTwo("A", "bas", "2", "t1", "yes");
    count := |bot.applications|;
  }
}
