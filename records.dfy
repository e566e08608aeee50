/** Entities of the guild application workflow: the records kept in the
    `applications` list, the values of the two-phase intake map, and the
    outcomes the command and button handlers report. Identifiers, user ids,
    user names and ISO timestamps are opaque strings supplied by the caller. */
module Records {

  datatype Option<T> = None | Some(value: T)

  /** The `status` string of a record: "pending", "accepted" or "rejected". */
  datatype Status = Pending | Accepted | Rejected

  /** The five answers of the first application modal. */
  datatype PartOne = PartOne(ign: string, weapon: string, gearscore: string, hours: string, availability: string)

  /** The `data` object of a record: the part-one answers spread into it
      (None when the intake entry held no part-one answers, since spreading
      an undefined value adds no fields) and the `pvp` answer of part two. */
  datatype Answers = Answers(partOne: Option<PartOne>, pvp: string)

  /** One element of the `applications` list. The three optional fields are
      absent until a reviewer acts on the record. */
  datatype Application = Application(
    id: string,
    userId: string,
    username: string,
    timestamp: string,
    status: Status,
    data: Answers,
    processedBy: Option<string>,
    processedAt: Option<string>,
    rejectionReason: Option<string>)

  /** The value kept per user in the intake map. The second modal and its
      input component stored beside the answers are user-interface objects
      and are not part of this model. */
  datatype Intake = Intake(data: Option<PartOne>)

  /** Why a handler refused to act. MissingIntake is the TypeError raised
      when a modal is submitted for a user without an intake entry; the
      top-level interaction handler catches it and replies with a generic
      error message. UnknownButton is a button whose custom id matches none of
      the three prefixes; the handler then does nothing and sends no reply. */
  datatype Failure = PermissionDenied | NotFound | NoPendingApplication | MissingIntake | UnknownButton

  datatype Result<T> = Ok(value: T) | Err(failure: Failure)

  predicate IsPending(a: Application) {
    a.status == Pending
  }

  /** The fields fixed when an application is submitted: a review changes
      none of them. */
  predicate SameSubmission(a: Application, b: Application) {
    a.id == b.id && a.userId == b.userId && a.username == b.username
    && a.timestamp == b.timestamp && a.data == b.data
  }
}
