# Gouda guild application queue — a Dafny model

The Gouda guild bot takes membership applications through a two-part form
and lets officers review them. This project models the one part of it that
keeps state:

- **The `applications` list.** It lives in memory and is written out whole to
  a data file after every change. `/apply` creates an intake entry. Submitting
  the second form appends a pending record. Officers review a record with the
  Accept and Reject buttons (by record id) or with `/accept` and `/reject`
  (by applicant). A review rewrites the record in place.
- **The intake map.** It is keyed by user id and holds the answers of the
  first form until the second one arrives.
- **The queries.** These are the pending filter, the queue position shown
  for a new application, the record `/next` shows, and the first-ten listing
  of `/applications`.

Modules:

- `Records` (records.dfy): the record, status, answer and intake types, and
  the failures a handler reports.
- `Queue` (queue.dfy): the read-only queries as functions over the list,
  with lemmas about order and position.
- `Review` (review.dfy): how a review rewrites a record, how the record is
  found, and what a review does to the queue and to one applicant's pending
  count.
- `Buttons` (buttons.dfy): the custom ids of the review buttons and how the
  button handler parses them.
- `Bot` (bot.dfy): class `ApplicationBot`, with the list, the intake map and
  the last saved list as fields. Its handler methods are proved against the
  `Queue` and `Review` functions. Three scenario methods replay complete
  event sequences.

## Behaviour worth knowing

- The button reviews have no "already processed" guard. A record that is
  already accepted or rejected is reviewed again, and the second verdict
  overwrites the first (`Review.SecondReviewOverwrites`,
  `Bot.ReviewRaceScenario`).
- The intake entry is never removed. Part two leaves it in the map.
- Queue order is list order, which is the order of submission.
- The position is findIndex + 1 over the pending records. It is 0 when no
  pending record has the id, and it is the first pending record with that id
  when ids repeat.
- Ids come from the clock and may repeat. A by-id review rewrites the first
  record with the id, which can be an earlier, already processed record; the
  queue then stays as it was (`Review.ReviewNextById`).
- A reject by id records no reason and leaves any earlier reason in place.
  `/reject` records the given reason, or "No reason provided." when the
  reason is missing or empty.
- A second `/apply` between the two parts replaces the entry, so part two then
  builds a record with the PvP answer alone (`Bot.RestartedIntakeScenario`).

## Model

| member | source | states |
|---|---|---|
| `Queue.FindIndex` | index.js:534 | `find`/`findIndex`: -1 exactly when no element satisfies the predicate, otherwise an index whose element satisfies it with none before it |
| `Queue.PendingList` | index.js:480-482 | the pending filter keeps only pending records and is never longer than the list |
| `Queue.PendingMembers` | index.js:480-482 | a record is in the queue exactly when it is in the list and pending |
| `Queue.PendingAppend` | index.js:337-338 | the queue of `a + b` is the queue of `a` followed by that of `b`: an appended application goes last, and existing entries keep their order |
| `Queue.PendingSplit` | index.js:480-482 | the queue is the queue before a record, then that record if pending, then the queue after it |
| `Queue.IndexOfId` | index.js:590 | findIndex by id: -1 exactly when no record has the id, otherwise the first record with that id |
| `Queue.Position` | index.js:365-368 | the reported position is between 0 and the queue length; it is 0 exactly when no pending record has the id; otherwise it is the 1-based rank of the first pending record with the id |
| `Queue.PositionOfNewApplication` | index.js:365-368 | right after the append, the position is between 1 and the queue length; if no earlier pending record has the id, it equals the queue length (the new application is last) |
| `Queue.NextApplication` | index.js:534 | `/next` finds nothing exactly when no record is pending; otherwise it finds a pending record of the list |
| `Queue.NextIsQueueHead` | index.js:534-541 | the `/next` record is the head of the pending queue, and there is none exactly when the queue is empty |
| `Queue.NextSplitsQueue` | index.js:534 | every record before the `/next` record is already processed, and the queue is that record followed by the queue of the records after it |
| `Queue.Numbered` | index.js:500-503 | the listing numbers the shown records from 1 in order: entry k carries number k + 1 and the k-th record |
| `Queue.ViewQueue` | index.js:480-516 | "no pending applications" exactly when nothing is pending; otherwise the total, the first min(10, total) queue entries numbered from 1, and a footer count of total − 10 only when total exceeds 10 |
| `Queue.PendingNone` | index.js:484-489 | a list with no pending record has an empty queue |
| `Review.Processed` | index.js:601-604 | a review sets status, processedBy and processedAt together, whatever the old status, and leaves the submitted fields and rejectionReason as they were |
| `Review.RejectionReason` | index.js:763-764 | the recorded reason is never empty: it is the given reason, or "No reason provided." when the reason is absent or empty |
| `Review.IndexOfPendingFor` | index.js:716-718 | the by-applicant lookup finds the first record of that user that is pending, or -1 exactly when there is none |
| `Review.NoPendingForUser` | index.js:716-725 | the by-applicant lookup fails exactly when the applicant's pending count is zero |
| `Review.PendingCountAppend` | index.js:716-718 | one applicant's pending count adds up over concatenation |
| `Review.Retire` | index.js:599-604 | replacing a record with a non-pending one removes it from the queue if it was pending, and otherwise leaves the queue unchanged; the other entries keep their order |
| `Review.RetireCount` | index.js:727-730 | the same replacement lowers the applicant's pending count by one when the replaced record was theirs and pending, and otherwise leaves it unchanged |
| `Review.ReviewingNextAdvancesQueue` | index.js:534-541 | replacing the record `/next` shows by a non-pending one leaves the old queue without its head |
| `Review.ReviewNextById` | index.js:589-606 | a by-id review of the `/next` record succeeds; when no earlier record has its id the queue loses exactly its head, and otherwise (a repeated id) the earlier record is rewritten and the queue is unchanged |
| `Review.ReviewById` | index.js:589-606 | unknown id: the list is unchanged and NotFound is reported; otherwise only the first record with the id changes, it gets the verdict, officer and time, and its submission and reason are kept |
| `Review.ReviewByApplicant` | index.js:715-732 | no pending record for the user: the list is unchanged and NoPendingApplication is reported; otherwise only that user's first pending record changes (verdict, officer, time, and the reason if one is recorded); the user's pending count and the queue length each drop by one |
| `Review.ReviewByIdQueue` | index.js:599-606 | a button review of a pending record shortens the queue by one; a review of an unknown id or of an already processed record leaves the queue as it was |
| `Review.SecondReviewOverwrites` | index.js:646-663 | after a record is accepted by id, a reject by id of the same record also succeeds and leaves it rejected by the second officer |
| `Buttons.ButtonId` | index.js:403-411 | a button's custom id starts with its action's prefix and ends with the application id |
| `Buttons.ParseButtonId` | index.js:455-463 | a parsed custom id is the button id of the action it yields; no action exactly when none of the three prefixes matches |
| `Buttons.ParseButtonIdRoundTrip` | index.js:401-414 | every button built for an application parses back to the same action and id |
| `Bot.ApplicationBot.constructor` | index.js:40-52 | at start-up the loaded list is both in memory and on disk, and no intake is under way |
| `Bot.ApplicationBot.Save` | index.js:55-65 | after a save, the file holds the in-memory list |
| `Bot.ApplicationBot.StartApplication` | index.js:252-275 | `/apply` replaces the user's intake entry with a fresh one that has no answers (last write wins) |
| `Bot.ApplicationBot.SubmitPartOne` | index.js:283-298 | the five answers go into the user's existing entry; without an entry, MissingIntake is reported and the map is unchanged |
| `Bot.ApplicationBot.SubmitPartTwo` | index.js:317-338 | without an entry: MissingIntake, nothing appended, nothing saved; otherwise exactly one pending record by the submitter, with part one's answers plus pvp, is appended and saved, the intake entry stays, and the reported position is its place at the end of the queue when no earlier pending record has the same id, and otherwise the rank of that earlier record |
| `Bot.ApplicationBot.ViewApplicationQueue` | index.js:468-489 | non-officers are refused; officers always get the listing of the current queue |
| `Bot.ApplicationBot.ProcessNextApplication` | index.js:522-541 | non-officers are refused; officers get the head of the queue, or NoPendingApplication when the queue is empty |
| `Bot.ApplicationBot.ApplyReview` | index.js:599-606 | a successful review replaces the list and saves it; a failed one changes and saves nothing |
| `Bot.ApplicationBot.AcceptApplicationById` | index.js:589-606 | the new list and the reply are those of `ReviewById` with verdict accepted; the list is saved exactly when the id is found |
| `Bot.ApplicationBot.RejectApplicationById` | index.js:646-663 | the new list and the reply are those of `ReviewById` with verdict rejected, no reason recorded; the list is saved exactly when the id is found |
| `Bot.ApplicationBot.PressButton` | index.js:441-465 | non-officers are refused and nothing changes; the parsed custom id selects accept or reject by id, or a screenshot lookup (the first record with the id, NotFound exactly when none has it); a review saves exactly when the id is found; an unknown button changes nothing |
| `Bot.ApplicationBot.AcceptApplicant` | index.js:703-732 | non-officers are refused; otherwise the new list and the reply are those of `ReviewByApplicant` with verdict accepted, saved on success |
| `Bot.ApplicationBot.RejectApplicant` | index.js:750-782 | the same with verdict rejected, recording the given reason or the default |
| `Bot.IntakeScenario` | index.js:282-338 | `/apply`, part one and part two by one applicant give exactly one pending record, with both parts' answers, at position 1 |
| `Bot.ReviewRaceScenario` | index.js:589-663 | Accept then Reject on the same application both succeed; the record ends rejected by the second officer, and the queue is empty |
| `Bot.RestartedIntakeScenario` | index.js:317-335 | part two with no entry fails; after a second `/apply` between the parts, the record carries only the PvP answer |

## Left out

- The chat-platform client, slash-command registration and the "Unknown command" reply are not modelled. Nor are the building of modals, embeds and buttons, replies, follow-ups, direct messages and the delayed screenshot reminder. These are calls into an SDK whose behaviour is not part of this model. What the part-one handler does after storing the answers (its reply and the second modal) is among them.
- The JSON serialisation and the file system are not modelled. The list read at start-up is a constructor parameter.
- Bot.ApplicationBot.constructor: does not model a load failure. In the source, a failed load keeps the empty list while the file keeps its old content; here both are the given list.
- Bot.ApplicationBot.Save: does not model a failed write. In the source, a failed write is only logged: the file keeps its old content if it cannot be opened, and may be left truncated or partly written if the write itself fails; here the file always receives the list.
- The officer role lookup is a boolean parameter (`isOfficer`).
- The officer-channel lookup before the position is computed is not modelled. Part two always reports the position, as if the channel exists.
- `Date.now()` ids, ISO timestamps, user names and the target user of a slash command are parameters. Ids are not assumed unique. The position lemma states what holds when they are.
- The second modal and its input component, which the intake entry also stores, are user-interface objects and are not modelled.
- Each handler runs as one atomic step. Interleaving of handlers at `await` points is not modelled. In the source, every lookup and its in-place update run without an `await` between them.
- Records read from the file are assumed to have the shape the bot writes. Malformed records are not modelled.
