/**
 * What one run of the schedule join promises, stated over whole snapshots:
 * which pages exist, which events land on which page, where the fields of an
 * emitted event come from, and exactly when a run aborts.
 */
module ScheduleProperties {
  import opened Wrappers
  import opened Collection
  import opened ScheduleData
  import opened GenerateSchedule

  /**
   * A run aborts exactly when some speaker has no user profile, or some event
   * scheduled on one of the days fails to resolve its submission or its
   * submission's declared level. Events on no listed day never abort a run.
   */
  lemma GenerateFailsIff(s: Snapshot)
    ensures Generate(s).Failure? <==>
      || (exists i :: 0 <= i < |s.speakers| && !HasId(s.users, s.speakers[i].data.userProfile))
      || (exists k, e :: 0 <= k < |s.days| && e in s.events && e.data.day == s.days[k].id && !EventResolvable(e, s))
  {
  }

  /**
   * A day's selection holds each event of that day exactly as often as the
   * collection does, and no event of another day; so every event lands on the
   * pages of the days with its day id and on no other page.
   */
  lemma EventsOfDayCount(events: seq<Doc<EventData>>, dayId: string)
    ensures forall e :: multiset(EventsOfDay(events, dayId))[e] == if e.data.day == dayId then multiset(events)[e] else 0
  {
    FilterCount(events, (e: Doc<EventData>) => e.data.day == dayId);
  }

  /**
   * An event's speakers hold each flattened speaker whose id the submission
   * lists exactly as often as the flattened list does, and no other.
   */
  lemma SpeakersOfCount(flattened: seq<Speaker>, refs: Option<seq<string>>)
    ensures forall sp ::
      multiset(SpeakersOf(flattened, refs))[sp] == if sp.id in refs.GetOr([]) then multiset(flattened)[sp] else 0
  {
    var ids := refs.GetOr([]);
    FilterCount(flattened, (sp: Speaker) => sp.id in ids);
  }

  /** Removing an event of another day leaves a day's selection unchanged. */
  lemma EventsOfDaySkip(events: seq<Doc<EventData>>, j: int, dayId: string)
    requires 0 <= j < |events| && events[j].data.day != dayId
    ensures EventsOfDay(events[..j] + events[j + 1..], dayId) == EventsOfDay(events, dayId)
  {
    FilterSkip(events, j, (e: Doc<EventData>) => e.data.day == dayId);
  }

  /**
   * An event whose day reference matches none of the days is never looked at:
   * deleting it from the snapshot gives the same outcome, pages or error.
   */
  lemma OrphanEventIgnored(s: Snapshot, j: int)
    requires 0 <= j < |s.events|
    requires forall k :: 0 <= k < |s.days| ==> s.days[k].id != s.events[j].data.day
    ensures Generate(s.(events := s.events[..j] + s.events[j + 1..])) == Generate(s)
  {
    var t := s.(events := s.events[..j] + s.events[j + 1..]);
    assert FlattenSpeakers(t.speakers, t.users) == FlattenSpeakers(s.speakers, s.users);
    var fl := FlattenSpeakers(s.speakers, s.users);
    if fl.Success? {
      forall k | 0 <= k < |s.days|
        ensures BuildPage(s.days[k], t, fl.value) == BuildPage(s.days[k], s, fl.value)
      {
        EventsOfDaySkip(s.events, j, s.days[k].id);
        SameLookupsSamePage(s.days[k], s, t, fl.value);
      }
      SamePagesSameRun(s, t);
    }
  }

  /** Resolving an event reads only the submissions, places, tracks and levels. */
  lemma SameLookupsSameEvent(e: Doc<EventData>, s: Snapshot, t: Snapshot, flattened: seq<Speaker>)
    requires s.submissions == t.submissions && s.places == t.places
    requires s.tracks == t.tracks && s.levels == t.levels
    ensures ResolveEvent(e, s, flattened) == ResolveEvent(e, t, flattened)
  {
  }

  /** A page depends on the events of the snapshot only through its day's selection. */
  lemma SameLookupsSamePage(day: Doc<DayData>, s: Snapshot, t: Snapshot, flattened: seq<Speaker>)
    requires EventsOfDay(s.events, day.id) == EventsOfDay(t.events, day.id)
    requires s.submissions == t.submissions && s.places == t.places
    requires s.tracks == t.tracks && s.levels == t.levels
    ensures BuildPage(day, s, flattened) == BuildPage(day, t, flattened)
  {
    var sel := EventsOfDay(s.events, day.id);
    forall i | 0 <= i < |sel|
      ensures EventResolver(s, flattened)(sel[i]) == EventResolver(t, flattened)(sel[i])
    {
      SameLookupsSameEvent(sel[i], s, t, flattened);
    }
    TraverseAgree(sel, EventResolver(s, flattened), EventResolver(t, flattened));
  }

  /** Two snapshots with the same speakers, users and days, and the same page per day, run alike. */
  lemma SamePagesSameRun(s: Snapshot, t: Snapshot)
    requires s.speakers == t.speakers && s.users == t.users && s.days == t.days
    requires FlattenSpeakers(s.speakers, s.users).Success? ==>
      forall k :: 0 <= k < |s.days| ==>
        BuildPage(s.days[k], s, FlattenSpeakers(s.speakers, s.users).value)
        == BuildPage(s.days[k], t, FlattenSpeakers(s.speakers, s.users).value)
    ensures Generate(s) == Generate(t)
  {
    var fl := FlattenSpeakers(s.speakers, s.users);
    if fl.Success? {
      TraverseAgree(s.days, PageBuilder(s, fl.value), PageBuilder(t, fl.value));
    }
  }

  /**
   * A successful run has one page per day, in day order, each carrying its day
   * unchanged; the documents it writes are keyed by exactly the day ids.
   */
  lemma OnePagePerDay(s: Snapshot, pages: seq<SchedulePage>)
    requires Generate(s) == Success(pages)
    ensures |pages| == |s.days|
    ensures forall k :: 0 <= k < |pages| ==> pages[k].day == s.days[k]
    ensures forall id :: id in PageMap(pages) <==> exists k :: 0 <= k < |s.days| && s.days[k].id == id
  {
    PagesKeyedByDays(pages, s.days);
  }

  /**
   * When the day ids are distinct, a successful run writes under each day's id
   * exactly that day's page.
   */
  lemma EachDayUnderItsId(s: Snapshot, pages: seq<SchedulePage>)
    requires Generate(s) == Success(pages)
    requires forall k, j :: 0 <= k < j < |s.days| ==> s.days[k].id != s.days[j].id
    ensures |pages| == |s.days|
    ensures forall k :: 0 <= k < |s.days| ==> PageMap(pages)[s.days[k].id] == pages[k]
  {
    PagesKeyedByDays(pages, s.days);
  }

  /**
   * Pages that carry the days in order are written under exactly those days'
   * ids, and with distinct ids each under its own day's id.
   */
  lemma PagesKeyedByDays(pages: seq<SchedulePage>, days: seq<Doc<DayData>>)
    requires |pages| == |days| && forall k :: 0 <= k < |pages| ==> pages[k].day == days[k]
    ensures forall id :: id in PageMap(pages) <==> exists k :: 0 <= k < |days| && days[k].id == id
    ensures (forall k, j :: 0 <= k < j < |days| ==> days[k].id != days[j].id) ==>
      forall k :: 0 <= k < |days| ==> PageMap(pages)[days[k].id] == pages[k]
  {
    if forall k, j :: 0 <= k < j < |days| ==> days[k].id != days[j].id {
      assert forall k :: 0 <= k < |pages| ==> LastWithDayId(pages, k);
    }
  }

  /** The page of day `k` of a successful run is that day's built page. */
  lemma PageOfDay(s: Snapshot, pages: seq<SchedulePage>, k: int)
    requires Generate(s) == Success(pages) && 0 <= k < |s.days|
    ensures FlattenSpeakers(s.speakers, s.users).Success?
    ensures |pages| == |s.days|
    ensures BuildPage(s.days[k], s, FlattenSpeakers(s.speakers, s.users).value) == Success(pages[k])
  {
  }

  /**
   * On a successful run, every event whose day reference is the id of day `k`
   * is emitted on that day's page, keeping its id, times and type.
   */
  lemma EventOnItsDayPage(s: Snapshot, pages: seq<SchedulePage>, k: int, e: Doc<EventData>)
    requires Generate(s) == Success(pages) && 0 <= k < |s.days|
    requires e in s.events && e.data.day == s.days[k].id
    ensures |pages| == |s.days|
    ensures exists i ::
      && 0 <= i < |pages[k].events|
      && pages[k].events[i].id == e.id
      && pages[k].events[i].startTime == e.data.startTime
      && pages[k].events[i].endTime == e.data.endTime
      && pages[k].events[i].eventType == e.data.eventType
  {
    PageOfDay(s, pages, k);
    var selected := EventsOfDay(s.events, s.days[k].id);
    var i :| 0 <= i < |selected| && selected[i] == e;
    assert pages[k].events[i].id == e.id;
  }

  /**
   * On a successful run, every event emitted on the page of day `k` is the
   * resolution of an event whose day reference is that day's id, so each of
   * its fields traces back to that event.
   */
  lemma EmittedEventHasSource(s: Snapshot, pages: seq<SchedulePage>, k: int, i: int)
    requires Generate(s) == Success(pages) && 0 <= k < |s.days|
    requires |pages| == |s.days| && 0 <= i < |pages[k].events|
    ensures FlattenSpeakers(s.speakers, s.users).Success?
    ensures exists e ::
      && e in s.events
      && e.data.day == s.days[k].id
      && ResolveEvent(e, s, FlattenSpeakers(s.speakers, s.users).value) == Success(pages[k].events[i])
  {
    PageOfDay(s, pages, k);
    var selected := EventsOfDay(s.events, s.days[k].id);
    assert selected[i] in selected;
  }

  /**
   * On a successful run, the speakers of an emitted event are flattened
   * speakers, in flattened order, each built from a speaker whose id the
   * event's submission lists.
   */
  lemma EventSpeakersAreFlattened(s: Snapshot, pages: seq<SchedulePage>, k: int, i: int)
    requires Generate(s) == Success(pages) && 0 <= k < |pages| && 0 <= i < |pages[k].events|
    ensures FlattenSpeakers(s.speakers, s.users).Success?
    ensures IsSubsequence(pages[k].events[i].speakers, FlattenSpeakers(s.speakers, s.users).value)
    ensures |EventsOfDay(s.events, s.days[k].id)| == |pages[k].events|
    ensures
      var e := EventsOfDay(s.events, s.days[k].id)[i];
      && FindById(s.submissions, e.data.submission).Some?
      && forall sp :: sp in pages[k].events[i].speakers ==>
           sp.id in FindById(s.submissions, e.data.submission).value.data.speakers.GetOr([])
    ensures forall sp :: sp in pages[k].events[i].speakers ==>
      exists j ::
        && 0 <= j < |s.speakers|
        && FlattenSpeaker(s.speakers[j], s.users) == Success(sp)
        && s.speakers[j].id == sp.id
  {

  }

  /**
   * Flattening happens before any page is built: the first speaker without a
   * user profile aborts the run with that speaker's error, whatever the days
   * and events are.
   */
  lemma SpeakerWithoutProfileAborts(s: Snapshot, i: int)
    requires 0 <= i < |s.speakers| && !HasId(s.users, s.speakers[i].data.userProfile)
    requires forall j :: 0 <= j < i ==> HasId(s.users, s.speakers[j].data.userProfile)
    ensures Generate(s) == Failure(MissingUserProfile(s.speakers[i].id, s.speakers[i].data.userProfile))
  {

  }

  /** An event on a listed day whose submission does not exist aborts the run. */
  lemma MissingSubmissionAborts(s: Snapshot, k: int, e: Doc<EventData>)
    requires 0 <= k < |s.days| && e in s.events && e.data.day == s.days[k].id
    requires !HasId(s.submissions, e.data.submission)
    ensures Generate(s).Failure?
  {

  }

  /** The stored form of a track view: the inverse of `TrackFrom`. */
  function TrackDoc(t: Track): Doc<TrackData> {
    Doc(t.id, TrackData(t.name, t.accentColor, t.textColor, t.iconUrl))
  }

  /** Reshaping a track neither loses nor invents anything: it is a bijection onto views. */
  lemma TrackFromRoundTrip(d: Doc<TrackData>, t: Track)
    ensures TrackFrom(Some(d)) == Some(t) <==> TrackDoc(t) == d
    ensures TrackFrom(Some(TrackDoc(t))) == Some(t)
  {
  }

  /**
   * After a successful run, a stored page whose id is not the id of any listed
   * day keeps its old contents: removed days are not cleaned up.
   */
  lemma StalePagesRemain(s: Snapshot, pages: seq<SchedulePage>, before: map<string, SchedulePage>, id: string)
    requires Generate(s) == Success(pages)
    requires id in before && forall k :: 0 <= k < |s.days| ==> s.days[k].id != id
    ensures id in StoreAfter(before, pages) && StoreAfter(before, pages)[id] == before[id]
  {
    assert forall k :: 0 <= k < |pages| ==> pages[k].day.id == s.days[k].id;
  }
}
