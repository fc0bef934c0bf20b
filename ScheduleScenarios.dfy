/** Small snapshots with their expected outcomes. */
module ScheduleScenarios {
  import opened Wrappers
  import opened Collection
  import opened ScheduleData
  import opened GenerateSchedule
  import opened ScheduleProperties

  const day1 := Doc("d1", DayData("2017-04-06"))
  const speaker1 := Doc("sp1", SpeakerData("u1", "Writes compilers", "Acme", "https://acme.example", "ada", "https://ada.example"))
  const ada := Doc("u1", UserData("Ada", "https://ada.example/ada.png"))
  const coreTrack := Doc("t1", TrackData("Core", "#ff0000", "#ffffff", "https://icons.example/core.svg"))
  const intro := Doc("sub1", SubmissionData("Intro", "A first look", None, Some(["sp1"])))
  const talk1 := Doc("e1", EventData("d1", "sub1", "p1", "t1", "09:00", "10:00", "talk"))

  const snapshot := Snapshot([day1], [talk1], [intro], [], [coreTrack], [speaker1], [ada], [])

  /**
   * One day, one event on it with a submission, a track, no matching place,
   * no level and one speaker: one page with the fully resolved event.
   */
  lemma ResolvedSingleEvent()
    ensures Generate(snapshot) == Success([SchedulePage(day1, [ScheduleEvent(
      "e1", "Intro", "09:00", "10:00", None,
      Some(Track("t1", "Core", "#ff0000", "#ffffff", "https://icons.example/core.svg")),
      [Speaker("sp1", "Ada", "Writes compilers", "Acme", "https://acme.example", "ada",
               "https://ada.example/ada.png", "https://ada.example")],
      None, "talk", "A first look")])])
  {
    var flattened := [Speaker("sp1", "Ada", "Writes compilers", "Acme", "https://acme.example", "ada",
                              "https://ada.example/ada.png", "https://ada.example")];
    assert snapshot.users[0].id == "u1";
    assert snapshot.speakers == [speaker1];
    assert HasId(snapshot.users, speaker1.data.userProfile);
    assert FlattenSpeaker(speaker1, snapshot.users) == Success(flattened[0]);
    var r := FlattenSpeakers(snapshot.speakers, snapshot.users);
    assert r.Success?;
    assert r.value[0] == flattened[0];
    assert |r.value| == 1;
    assert r.value == flattened;
    assert EventsOfDay(snapshot.events, "d1") == [talk1];
    assert FindById(snapshot.submissions, "sub1") == Some(intro);
    assert EventResolvable(talk1, snapshot);
    assert FindById(snapshot.tracks, "t1") == Some(coreTrack);
    assert SpeakersOf(flattened, Some(["sp1"])) == flattened;
    var ev := ScheduleEvent(
      "e1", "Intro", "09:00", "10:00", None,
      Some(Track("t1", "Core", "#ff0000", "#ffffff", "https://icons.example/core.svg")),
      flattened, None, "talk", "A first look");
    assert IsFirstWithId(snapshot.submissions, "sub1", 0);
    var re := ResolveEvent(talk1, snapshot, flattened);
    assert re.Success?;
    assert re.value == ev;
    var page := BuildPage(day1, snapshot, flattened);
    assert page.Success?;
    assert page.value.events[0] == ev;
    assert page.value.events == [ev];
    GenerateFailsIff(snapshot);
    var g := Generate(snapshot);
    assert g.Success?;
    assert g.value[0] == page.value;
    assert g.value == [page.value];
  }

  /** An event whose submission does not exist aborts the run; it is not silently left out. */
  lemma MissingSubmissionFails()
    ensures Generate(snapshot.(submissions := [])) == Failure(MissingSubmission("e1", "sub1"))
  {

  }

  /**
   * A submission listing `sp1` and `sp2` where only `sp1` has a user profile:
   * the run aborts on `sp2`, it does not drop it.
   */
  lemma UnresolvedSecondSpeakerFails()
    ensures
      var speaker2 := Doc("sp2", SpeakerData("u2", "", "", "", "", ""));
      var t := snapshot.(
        speakers := [speaker1, speaker2],
        submissions := [Doc("sub1", SubmissionData("Intro", "A first look", None, Some(["sp1", "sp2"])))]);
      Generate(t) == Failure(MissingUserProfile("sp2", "u2"))
  {

  }

  /**
   * An event on a day that is not listed is never resolved: even with a
   * missing submission it neither appears anywhere nor aborts the run.
   */
  lemma EventOnUnlistedDayIgnored()
    ensures
      var stray := Doc("e9", EventData("d9", "nowhere", "", "", "", "", "talk"));
      Generate(snapshot.(events := [talk1, stray])) == Generate(snapshot)
  {
    var stray := Doc("e9", EventData("d9", "nowhere", "", "", "", "", "talk"));
    var t := snapshot.(events := [talk1, stray]);
    assert t.events[..1] + t.events[2..] == [talk1];
    assert t.(events := [talk1]) == snapshot;
    OrphanEventIgnored(t, 1);
  }
}
