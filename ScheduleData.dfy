/**
 * The records the schedule view reads and writes. Input records are the
 * `data` of a `Doc`, which adds the document id; only the fields the join
 * reads are kept, and a record passed through whole (a day, a place) keeps one
 * opaque descriptive field. Field values the join only copies (times, colours,
 * URLs) are strings.
 */
module ScheduleData {
  import opened Wrappers
  import opened Collection

  /** A conference day; passed through to its page unchanged. */
  datatype DayData = DayData(date: string)

  /** An event; `day`, `submission`, `place` and `track` are ids of other records. */
  datatype EventData = EventData(
    day: string,
    submission: string,
    place: string,
    track: string,
    startTime: string,
    endTime: string,
    eventType: string)

  /**
   * A talk submission. `level` is the optional experience-level reference and
   * `speakers` the optional list of speaker ids.
   */
  datatype SubmissionData = SubmissionData(
    title: string,
    abstractText: string,
    level: Option<string>,
    speakers: Option<seq<string>>)

  /** A room; emitted whole on the events held in it. */
  datatype PlaceData = PlaceData(name: string)

  /** A track as stored, with its presentation attributes. */
  datatype TrackData = TrackData(name: string, accentColor: string, textColor: string, iconUrl: string)

  /** A speaker as stored; `userProfile` is the id of its user profile. */
  datatype SpeakerData = SpeakerData(
    userProfile: string,
    bio: string,
    companyName: string,
    companyUrl: string,
    twitterHandle: string,
    personalUrl: string)

  /** A user profile; supplies a speaker's name and photo. */
  datatype UserData = UserData(fullName: string, profilePic: string)

  /** An experience level; only its display name is emitted. */
  datatype LevelData = LevelData(name: string)

  /** The eight collections, as read at the start of one run. */
  datatype Snapshot = Snapshot(
    days: seq<Doc<DayData>>,
    events: seq<Doc<EventData>>,
    submissions: seq<Doc<SubmissionData>>,
    places: seq<Doc<PlaceData>>,
    tracks: seq<Doc<TrackData>>,
    speakers: seq<Doc<SpeakerData>>,
    users: seq<Doc<UserData>>,
    levels: seq<Doc<LevelData>>)

  /** A speaker joined with its user profile. */
  datatype Speaker = Speaker(
    id: string,
    name: string,
    bio: string,
    companyName: string,
    companyUrl: string,
    twitterUsername: string,
    photoUrl: string,
    personalUrl: string)

  /** The presentation view of a track. */
  datatype Track = Track(id: string, name: string, accentColor: string, textColor: string, iconUrl: string)

  /** One fully resolved event of a schedule page; `None` stands for `null`. */
  datatype ScheduleEvent = ScheduleEvent(
    id: string,
    title: string,
    startTime: string,
    endTime: string,
    place: Option<Doc<PlaceData>>,
    track: Option<Track>,
    speakers: seq<Speaker>,
    experienceLevel: Option<string>,
    eventType: string,
    description: string)

  /** The page written for one day. */
  datatype SchedulePage = SchedulePage(day: Doc<DayData>, events: seq<ScheduleEvent>)

  /**
   * A mandatory reference that resolves to nothing. The source dereferences
   * the missing record and throws, which aborts the whole run.
   */
  datatype Error =
    | MissingUserProfile(speaker: string, userProfile: string)
    | MissingSubmission(event: string, submission: string)
    | MissingLevel(submission: string, level: string)
}
