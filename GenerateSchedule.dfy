/**
 * The join that turns one snapshot of the normalised collections into one
 * schedule page per day: speakers are flattened with their user profiles once,
 * then every day's events are resolved against submissions, places, tracks,
 * levels and the flattened speakers.
 */
module GenerateSchedule {
  import opened Wrappers
  import opened Collection
  import opened ScheduleData

  /** Some record of `docs` has id `id`. */
  predicate HasId<T>(docs: seq<Doc<T>>, id: string) {
    exists i :: 0 <= i < |docs| && docs[i].id == id
  }

  /** The presentation view of a looked-up track; no track gives no view. */
  function TrackFrom(raw: Option<Doc<TrackData>>): (r: Option<Track>)
    ensures r.None? <==> raw.None?
    ensures raw.Some? ==>
      && r.value.id == raw.value.id
      && r.value.name == raw.value.data.name
      && r.value.accentColor == raw.value.data.accentColor
      && r.value.textColor == raw.value.data.textColor
      && r.value.iconUrl == raw.value.data.iconUrl
  {
    match raw
    case None => None
    case Some(t) => Some(Track(t.id, t.data.name, t.data.accentColor, t.data.textColor, t.data.iconUrl))
  }

  /**
   * A speaker joined with the first user profile whose id is its
   * `userProfile`; a speaker without a profile aborts the run.
   */
  function FlattenSpeaker(sp: Doc<SpeakerData>, users: seq<Doc<UserData>>): (r: Result<Speaker, Error>)
    ensures r.Failure? <==> !HasId(users, sp.data.userProfile)
    ensures r.Failure? ==> r.error == MissingUserProfile(sp.id, sp.data.userProfile)
    ensures forall i :: IsFirstWithId(users, sp.data.userProfile, i) ==>
      r == Success(Speaker(sp.id, users[i].data.fullName, sp.data.bio, sp.data.companyName,
                           sp.data.companyUrl, sp.data.twitterHandle, users[i].data.profilePic,
                           sp.data.personalUrl))
  {
    match FindById(users, sp.data.userProfile)
    case None => Failure(MissingUserProfile(sp.id, sp.data.userProfile))
    case Some(user) =>
      Success(Speaker(sp.id, user.data.fullName, sp.data.bio, sp.data.companyName,
                      sp.data.companyUrl, sp.data.twitterHandle, user.data.profilePic,
                      sp.data.personalUrl))
  }

  /**
   * One flattened speaker per speaker, in speaker order; the first speaker
   * without a user profile aborts the run.
   */
  function FlattenSpeakers(speakers: seq<Doc<SpeakerData>>, users: seq<Doc<UserData>>): (r: Result<seq<Speaker>, Error>)
    ensures r.Success? <==> forall i :: 0 <= i < |speakers| ==> HasId(users, speakers[i].data.userProfile)
    ensures r.Success? ==>
      && |r.value| == |speakers|
      && forall i :: 0 <= i < |speakers| ==>
           r.value[i].id == speakers[i].id && FlattenSpeaker(speakers[i], users) == Success(r.value[i])
    ensures r.Failure? ==>
      exists i :: 0 <= i < |speakers|
        && !HasId(users, speakers[i].data.userProfile)
        && r.error == MissingUserProfile(speakers[i].id, speakers[i].data.userProfile)
        && forall j :: 0 <= j < i ==> HasId(users, speakers[j].data.userProfile)
  {
    Traverse(speakers, sp => FlattenSpeaker(sp, users))
  }

  /**
   * The events of the day with id `dayId`: exactly the events whose day
   * reference is `dayId`, in collection order.
   */
  function EventsOfDay(events: seq<Doc<EventData>>, dayId: string): (r: seq<Doc<EventData>>)
    ensures forall i :: 0 <= i < |r| ==> r[i].data.day == dayId
    ensures forall e :: e in r <==> e in events && e.data.day == dayId
    ensures IsSubsequence(r, events)
  {
    Filter(events, (e: Doc<EventData>) => e.data.day == dayId)
  }

  /**
   * The flattened speakers whose id is among the submission's speaker ids (a
   * missing list counts as empty), in flattened-speaker order.
   */
  function SpeakersOf(flattened: seq<Speaker>, refs: Option<seq<string>>): (r: seq<Speaker>)
    ensures forall i :: 0 <= i < |r| ==> r[i].id in refs.GetOr([])
    ensures forall sp :: sp in r <==> sp in flattened && sp.id in refs.GetOr([])
    ensures IsSubsequence(r, flattened)
    ensures refs.None? ==> r == []
  {
    var ids := refs.GetOr([]);
    Filter(flattened, (sp: Speaker) => sp.id in ids)
  }

  /**
   * The experience-level name of a submission: none when it declares no
   * level, otherwise the name of the first level with that id; a declared
   * level that does not exist aborts the run.
   */
  function ResolveLevel(sub: Doc<SubmissionData>, levels: seq<Doc<LevelData>>): (r: Result<Option<string>, Error>)
    ensures sub.data.level.None? ==> r == Success(None)
    ensures sub.data.level.Some? ==>
      && (r.Failure? <==> !HasId(levels, sub.data.level.value))
      && (r.Failure? ==> r.error == MissingLevel(sub.id, sub.data.level.value))
      && forall i :: IsFirstWithId(levels, sub.data.level.value, i) ==> r == Success(Some(levels[i].data.name))
  {
    match sub.data.level
    case None => Success(None)
    case Some(levelId) =>
      match FindById(levels, levelId)
      case None => Failure(MissingLevel(sub.id, levelId))
      case Some(level) => Success(Some(level.data.name))
  }

  /**
   * An event resolves when its submission exists and that submission's
   * declared level, if any, exists too. Place and track never block it.
   */
  predicate EventResolvable(e: Doc<EventData>, s: Snapshot) {
    match FindById(s.submissions, e.data.submission)
    case None => false
    case Some(sub) => sub.data.level.None? || HasId(s.levels, sub.data.level.value)
  }

  /**
   * The emitted record of one event. Its own fields come from the event, title
   * and description from the first submission with the referenced id (whose
   * absence aborts the run), place and track from the first record with the
   * referenced id or `None`, and speakers from the submission's speaker ids.
   */
  function ResolveEvent(e: Doc<EventData>, s: Snapshot, flattened: seq<Speaker>): (r: Result<ScheduleEvent, Error>)
    ensures r.Success? <==> EventResolvable(e, s)
    ensures r.Success? ==>
      && r.value.id == e.id
      && r.value.startTime == e.data.startTime
      && r.value.endTime == e.data.endTime
      && r.value.eventType == e.data.eventType
    ensures !HasId(s.submissions, e.data.submission) ==>
      r == Failure(MissingSubmission(e.id, e.data.submission))
    ensures forall i :: IsFirstWithId(s.submissions, e.data.submission, i) ==>
      var sub := s.submissions[i];
      && (r.Failure? ==> ResolveLevel(sub, s.levels) == Failure(r.error))
      && (r.Success? ==>
            && r.value.title == sub.data.title
            && r.value.description == sub.data.abstractText
            && r.value.place == FindById(s.places, e.data.place)
            && r.value.track == TrackFrom(FindById(s.tracks, e.data.track))
            && Success(r.value.experienceLevel) == ResolveLevel(sub, s.levels)
            && r.value.speakers == SpeakersOf(flattened, sub.data.speakers))
  {
    match FindById(s.submissions, e.data.submission)
    case None => Failure(MissingSubmission(e.id, e.data.submission))
    case Some(sub) =>
      var place := FindById(s.places, e.data.place);
      var track := FindById(s.tracks, e.data.track);
      match ResolveLevel(sub, s.levels)
      case Failure(err) => Failure(err)
      case Success(level) =>
        Success(ScheduleEvent(
          e.id, sub.data.title, e.data.startTime, e.data.endTime, place, TrackFrom(track),
          SpeakersOf(flattened, sub.data.speakers), level, e.data.eventType, sub.data.abstractText))
  }

  /** The callback of the map over a day's events. */
  function EventResolver(s: Snapshot, flattened: seq<Speaker>): Doc<EventData> -> Result<ScheduleEvent, Error> {
    e => ResolveEvent(e, s, flattened)
  }

  /**
   * The page of one day: the day itself and its events resolved in order; the
   * first event that does not resolve aborts the run.
   */
  function BuildPage(day: Doc<DayData>, s: Snapshot, flattened: seq<Speaker>): (r: Result<SchedulePage, Error>)
    ensures r.Success? <==> forall e :: e in s.events && e.data.day == day.id ==> EventResolvable(e, s)
    ensures r.Success? ==>
      var selected := EventsOfDay(s.events, day.id);
      && r.value.day == day
      && |r.value.events| == |selected|
      && forall i :: 0 <= i < |selected| ==>
           && ResolveEvent(selected[i], s, flattened) == Success(r.value.events[i])
           && r.value.events[i].id == selected[i].id
           && r.value.events[i].startTime == selected[i].data.startTime
           && r.value.events[i].endTime == selected[i].data.endTime
           && r.value.events[i].eventType == selected[i].data.eventType
    ensures r.Failure? ==>
      var selected := EventsOfDay(s.events, day.id);
      exists i :: 0 <= i < |selected|
        && ResolveEvent(selected[i], s, flattened) == Failure(r.error)
        && forall j :: 0 <= j < i ==> ResolveEvent(selected[j], s, flattened).Success?
  {
    var selected := EventsOfDay(s.events, day.id);
    var events :- Traverse(selected, EventResolver(s, flattened));
    Success(SchedulePage(day, events))
  }

  /** The callback of the map over the days. */
  function PageBuilder(s: Snapshot, flattened: seq<Speaker>): Doc<DayData> -> Result<SchedulePage, Error> {
    day => BuildPage(day, s, flattened)
  }

  /**
   * One run of the job: flatten the speakers, then build one page per day in
   * day order. Any failure aborts the whole run.
   */
  function Generate(s: Snapshot): (r: Result<seq<SchedulePage>, Error>)
    ensures FlattenSpeakers(s.speakers, s.users).Failure? ==>
      r == Failure(FlattenSpeakers(s.speakers, s.users).error)
    ensures r.Success? ==> FlattenSpeakers(s.speakers, s.users).Success?
    ensures r.Success? ==>
      && |r.value| == |s.days|
      && forall k :: 0 <= k < |s.days| ==>
           && r.value[k].day == s.days[k]
           && BuildPage(s.days[k], s, FlattenSpeakers(s.speakers, s.users).value) == Success(r.value[k])
    ensures FlattenSpeakers(s.speakers, s.users).Success? && r.Failure? ==>
      exists k :: 0 <= k < |s.days|
        && BuildPage(s.days[k], s, FlattenSpeakers(s.speakers, s.users).value) == Failure(r.error)
        && forall j :: 0 <= j < k ==> BuildPage(s.days[j], s, FlattenSpeakers(s.speakers, s.users).value).Success?
  {
    var flattened :- FlattenSpeakers(s.speakers, s.users);
    Traverse(s.days, PageBuilder(s, flattened))
  }

  /** No page after position `k` has the day id of page `k`. */
  predicate LastWithDayId(pages: seq<SchedulePage>, k: int)
    requires 0 <= k < |pages|
  {
    forall j :: k < j < |pages| ==> pages[j].day.id != pages[k].day.id
  }

  /**
   * The documents one run writes: each page under its day's id, a later write
   * to the same id replacing an earlier one.
   */
  function PageMap(pages: seq<SchedulePage>): (m: map<string, SchedulePage>)
    ensures forall id :: id in m <==> exists k :: 0 <= k < |pages| && pages[k].day.id == id
    ensures forall k :: 0 <= k < |pages| && LastWithDayId(pages, k) ==> m[pages[k].day.id] == pages[k]
  {
    if pages == [] then map[]
    else
      var rest := PageMap(pages[1..]);
      assert forall k :: 1 <= k < |pages| ==> pages[k] == pages[1..][k - 1];
      assert forall k :: 1 <= k < |pages| && LastWithDayId(pages, k) ==> LastWithDayId(pages[1..], k - 1);
      var first := pages[0];
      if first.day.id in rest then rest else rest[first.day.id := first]
  }

  /**
   * The stored pages after a run: the pages stored before, each written id
   * overwritten by its new page. A run only sets documents and never deletes
   * one, so pages of days no longer listed stay.
   */
  function StoreAfter(before: map<string, SchedulePage>, pages: seq<SchedulePage>): (after: map<string, SchedulePage>)
    ensures after.Keys == before.Keys + PageMap(pages).Keys
    ensures forall id :: id in PageMap(pages) ==> after[id] == PageMap(pages)[id]
    ensures forall id :: id in before && id !in PageMap(pages) ==> after[id] == before[id]
  {
    before + PageMap(pages)
  }
}
