# Schedule view join, modelled in Dafny

This project models the core of a conference back end's schedule-view job:
the denormalising join in `functions/src/schedule-view/generate-schedule.ts`.
The job reads an in-memory snapshot of eight collections: days, events,
submissions, places, tracks, speakers, user profiles and levels. Every record
has a string id, and references are ids too. First it joins each speaker with
its user profile. Then it builds one schedule page per day. A page holds the
day record and the day's events, each fully resolved: title and description
from its submission, place and track (or null), the experience-level name
(or null), and the speakers that the submission lists.

The model is a set of pure functions over sequences, with lemmas about them:

- `Wrappers.dfy`: `Option` (the source's `null`) and `Result` (a run that aborts).
- `Collection.dfy`: `Doc<T>`, a record with its document id, and the three list
  operations the join uses. `FindById` is `Array.find` on the id. `Filter` is
  `Array.filter`. `Traverse` is `Array.map` with a callback that may throw:
  the first throw aborts the whole map.
- `ScheduleData.dfy`: the input records, the snapshot, the output records and
  the error kinds. Only the fields the join reads are kept.
- `GenerateSchedule.dfy`: the join itself. It covers speaker flattening, the
  per-day event selection, event resolution, page building, the whole run,
  `trackFrom`, the documents a run writes keyed by day id, and the stored
  pages they leave behind.
- `ScheduleProperties.dfy`: lemmas about whole runs. They say when a run
  aborts, where each event lands, where the speakers of an event come from,
  and that events of unlisted days are ignored.
- `ScheduleScenarios.dfy`: small concrete snapshots with their outcomes.

A lookup the source marks with `!` (a mandatory relation) becomes a `Result`.
A miss there is a fatal `Error` for the whole run. The error says which
relation missed and gives the ids involved. An optional lookup (place, track)
becomes an `Option`. Lookups return the first record in collection order
whose id matches, just as `Array.find` does.

Three consequences of the code are worth stating up front:

- An event whose day reference matches no day is not an error. The code only
  filters events by day id (line 58), so such an event appears on no page,
  its submission is never looked up, and the run does not fail
  (`OrphanEventIgnored`).
- The TypeScript `!` does not throw by itself. The crash comes from the next
  property access (`user.full_name`, `submission.level`,
  `levels.find(...)!.name`). The outcome is the same: the first missing
  mandatory record, in evaluation order, aborts the run. That order is all
  speakers first, then day by day and event by event, and within one event
  the submission before its level.
- Being deterministic functions, two runs on the same snapshot give identical
  pages. This needs no separate lemma.

## Model

| member | source | states |
|---|---|---|
| `Collection.FindById` | functions/src/schedule-view/generate-schedule.ts:62-64 | the result is the first record in collection order whose id equals the key; it is `None` exactly when no record has that id |
| `Collection.Filter` | functions/src/schedule-view/generate-schedule.ts:58 | every kept element satisfies the predicate; an element is kept iff it occurs in the input and satisfies it; the result is a subsequence of the input |
| `Collection.FilterCount` | functions/src/schedule-view/generate-schedule.ts:71 | filtering keeps each accepted element exactly as many times as it occurs, and no rejected element at all |
| `Collection.Traverse` | functions/src/schedule-view/generate-schedule.ts:57-61 | a map whose callback can throw succeeds iff every element maps successfully, and then yields the mapped values in order; otherwise it fails with the error of the first element that fails |
| `GenerateSchedule.TrackFrom` | functions/src/schedule-view/generate-schedule.ts:95-106 | null in gives null out; otherwise `id` and `name` are copied and the accent colour, text colour and icon URL are carried over to the view's fields |
| `GenerateSchedule.FlattenSpeaker` | functions/src/schedule-view/generate-schedule.ts:39-51 | the join fails exactly when no user profile has the speaker's `user_profile` id; otherwise name and photo come from the first such profile and id, bio, company, twitter handle and personal URL come from the speaker |
| `GenerateSchedule.FlattenSpeakers` | functions/src/schedule-view/generate-schedule.ts:39-51 | one flattened speaker per speaker, in speaker order, with the same id; it fails iff some speaker has no profile, and then with the error of the first such speaker |
| `GenerateSchedule.EventsOfDay` | functions/src/schedule-view/generate-schedule.ts:58 | the selected events are exactly the collection's events whose day reference is the day id, in collection order |
| `GenerateSchedule.SpeakersOf` | functions/src/schedule-view/generate-schedule.ts:71 | an event's speakers are the flattened speakers whose id the submission lists, in flattened order (a subsequence); a missing list gives no speakers |
| `GenerateSchedule.ResolveLevel` | functions/src/schedule-view/generate-schedule.ts:65-69 | no declared level gives null; a declared level gives the name of the first level with that id, and fails iff no level has it |
| `GenerateSchedule.ResolveEvent` | functions/src/schedule-view/generate-schedule.ts:61-84 | succeeds iff the submission exists and its declared level, if any, exists; a missing submission gives `MissingSubmission`; id, times and type come from the event; title and description come from the first matching submission; place and track are the first match or null; level and speakers are resolved as above |
| `GenerateSchedule.BuildPage` | functions/src/schedule-view/generate-schedule.ts:57-86 | a page carries its day unchanged and one resolved event per selected event, in order, with that event's id, times and type; it fails iff some event of the day does not resolve, and then with the first such error |
| `GenerateSchedule.Generate` | functions/src/schedule-view/generate-schedule.ts:39-89 | a failed flattening fails the whole run with its error; otherwise a run yields one page per day, in day order, each the built page of its day, or the error of the first day that fails |
| `GenerateSchedule.PageMap` | functions/src/schedule-view/generate-schedule.ts:88 | the documents one run writes have exactly the listed day ids as keys, and under a day id hold the page of the last day with that id |
| `GenerateSchedule.StoreAfter` | functions/src/schedule-view/generate-schedule.ts:88 | after a run the stored pages are the earlier pages overwritten by the run's documents: every written id holds its new page, every other earlier id keeps its old page, and nothing is deleted |
| `ScheduleProperties.StalePagesRemain` | functions/src/schedule-view/generate-schedule.ts:57-88 | after a successful run, a stored page whose id is no longer a listed day keeps its old contents |
| `ScheduleProperties.GenerateFailsIff` | functions/src/schedule-view/generate-schedule.ts:39-86 | a run fails exactly when some speaker has no user profile, or some event on a listed day lacks its submission or its submission's declared level |
| `ScheduleProperties.EventsOfDayCount` | functions/src/schedule-view/generate-schedule.ts:58-61 | a day's selection holds each event of that day exactly as often as the collection, and no event of another day |
| `ScheduleProperties.SpeakersOfCount` | functions/src/schedule-view/generate-schedule.ts:71 | an event's speakers hold each listed flattened speaker exactly as often as the flattened list does, and no unlisted speaker |
| `ScheduleProperties.OrphanEventIgnored` | functions/src/schedule-view/generate-schedule.ts:58 | deleting an event whose day reference matches no day leaves the outcome of the run unchanged, pages and error alike |
| `ScheduleProperties.OnePagePerDay` | functions/src/schedule-view/generate-schedule.ts:57-88 | a successful run has one page per day, in day order, each holding its day record unchanged; the documents it writes are keyed by exactly the day ids |
| `ScheduleProperties.EachDayUnderItsId` | functions/src/schedule-view/generate-schedule.ts:57-88 | when day ids are distinct, a successful run writes under each day's id exactly that day's page |
| `ScheduleProperties.PagesKeyedByDays` | functions/src/schedule-view/generate-schedule.ts:88 | pages carrying the days in order are written under exactly those days' ids, and with distinct ids each under its own day's id |
| `ScheduleProperties.EventOnItsDayPage` | functions/src/schedule-view/generate-schedule.ts:58-82 | in a successful run, every event whose day reference is a day's id is emitted on that day's page with its own id, start time, end time and type |
| `ScheduleProperties.EmittedEventHasSource` | functions/src/schedule-view/generate-schedule.ts:58-84 | in a successful run, every event emitted on a day's page is the resolution of an event whose day reference is that day's id, so each of its fields traces back to that event and its submission |
| `ScheduleProperties.EventSpeakersAreFlattened` | functions/src/schedule-view/generate-schedule.ts:39-71 | in a successful run, an event's speakers are a subsequence of the flattened speakers; each of them is listed by the event's submission and is the flattening of a speaker with the same id |
| `ScheduleProperties.SpeakerWithoutProfileAborts` | functions/src/schedule-view/generate-schedule.ts:39-51 | whatever the days and events are, the first speaker without a user profile aborts the run with that speaker's `MissingUserProfile` |
| `ScheduleProperties.MissingSubmissionAborts` | functions/src/schedule-view/generate-schedule.ts:62-65 | an event on a listed day whose submission does not exist makes the run fail |
| `ScheduleProperties.TrackFromRoundTrip` | functions/src/schedule-view/generate-schedule.ts:95-106 | reshaping a track loses nothing: a track record reshapes to a view iff that view converts back to the same record |
| `ScheduleScenarios.ResolvedSingleEvent` | functions/src/schedule-view/generate-schedule.ts:57-86 | one day and one event with a submission, a track, no matching place, no level and one speaker give one page with the fully resolved event |
| `ScheduleScenarios.MissingSubmissionFails` | functions/src/schedule-view/generate-schedule.ts:62-65 | an event whose submission does not exist fails the run with `MissingSubmission`; it is not silently left out |
| `ScheduleScenarios.UnresolvedSecondSpeakerFails` | functions/src/schedule-view/generate-schedule.ts:39-51 | a submission listing two speakers, one without a profile, fails the run on that speaker |
| `ScheduleScenarios.EventOnUnlistedDayIgnored` | functions/src/schedule-view/generate-schedule.ts:58 | an event on an unlisted day with a missing submission changes nothing |

## Left out

- Reading the eight collections from Firestore and the `Promise.all` fan-in (functions/src/schedule-view/generate-schedule.ts:8-38): this is I/O and concurrency. The model takes the snapshot as an input.
- Persisting pages (functions/src/schedule-view/generate-schedule.ts:53-55, 88) is persistence. The model gives the documents one run writes (`PageMap`) and the stored pages they leave (`StoreAfter`), not the store's I/O. The source calls `set` inside the map over days. So when a later day's page throws, the pages of earlier days have already been sent to the store. The model does not capture these partial writes.
- Pages of days no longer listed are not removed: the source only calls `set` for the current days (line 88) and never deletes, so the stored view is the earlier view overwritten by `PageMap`, which `StoreAfter` states; the model does not promise that the stored view matches the current days.
- GenerateSchedule.PageMap: the source issues the writes concurrently. When two days share an id, which page wins is a race. The body takes the later one, but the contract only speaks of the last day with a given id. That covers every day when day ids are distinct.
- The HTTP response (functions/src/schedule-view/generate-schedule.ts:91) is transport. On failure the source sends no response at all.
- A missing reference object (`event.place` or `event.track` absent, lines 63-64) throws in the source. The model takes references as plain ids, so it does not cover this case.
- The errors carry the relation and the ids involved. In the source a miss is an untyped `TypeError`.
- The type files `schedule-view-data` and `firestore/data` are not part of this model. Fields are reduced to the ones the join reads. Values it only copies (times, colours, URLs, the opaque day and place attributes) are strings.
- `functions/src/patch/patch.ts` is a separate HTTP endpoint and is not part of this model. It covers token checking, field validation through helpers that are not shown, and a Firestore write.
