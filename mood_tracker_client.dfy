/** The mood tracker page (src/components/mood-tracker-client.tsx): whether a
    mood was already logged today, which mood is shown for today, and the
    save handler with its guard and reset. */
module MoodTrackerClient {
  import opened Types
  import opened AppProvider

  /** `hasLoggedToday`: `state.moodLogs.some(...)`. */
  function HasLoggedToday(logs: seq<MoodLog>, dayOf: Timestamp -> Day, today: Day): (b: bool)
    ensures b <==> exists i :: 0 <= i < |logs| && OnDay(logs[i], dayOf, today)
  {
    if logs == [] then false
    else
      var rest := HasLoggedToday(logs[1..], dayOf, today);
      assert forall i :: 1 <= i < |logs| ==> logs[i] == logs[1..][i - 1];
      OnDay(logs[0], dayOf, today) || rest
  }

  /** `state.moodLogs.find(...)?.mood`: the mood of the first log, in list
      order, dated today. */
  function TodaysMood(logs: seq<MoodLog>, dayOf: Timestamp -> Day, today: Day): (r: Option<Mood>)
    ensures r.None? <==> !HasLoggedToday(logs, dayOf, today)
    ensures r.Some? ==> exists i :: (0 <= i < |logs| && OnDay(logs[i], dayOf, today)
      && logs[i].mood == r.value && forall j :: 0 <= j < i ==> !OnDay(logs[j], dayOf, today))
  {
    if logs == [] then None
    else if OnDay(logs[0], dayOf, today) then Some(logs[0].mood)
    else
      var r := TodaysMood(logs[1..], dayOf, today);
      assert forall i :: 1 <= i < |logs| ==> logs[i] == logs[1..][i - 1];
      r
  }

  /** What the page shows: the "already logged" card with today's mood, or
      the entry form. */
  datatype TrackerView = AlreadyLogged(todaysMood: Mood) | EntryForm

  function View(logs: seq<MoodLog>, dayOf: Timestamp -> Day, today: Day): (v: TrackerView)
    ensures v.EntryForm? <==> forall i :: 0 <= i < |logs| ==> !OnDay(logs[i], dayOf, today)
    ensures v.AlreadyLogged? ==> exists i :: (0 <= i < |logs| && OnDay(logs[i], dayOf, today)
      && logs[i].mood == v.todaysMood && forall j :: 0 <= j < i ==> !OnDay(logs[j], dayOf, today))
  {
    if HasLoggedToday(logs, dayOf, today) then AlreadyLogged(TodaysMood(logs, dayOf, today).value)
    else EntryForm
  }

  /** A log saved now (today) closes the form and becomes today's mood, since
      the reducer puts it first; a log from another day leaves the view as it
      was. */
  lemma {:induction false} SavedMoodIsTodaysMood(s: State, log: MoodLog, dayOf: Timestamp -> Day, today: Day)
    ensures OnDay(log, dayOf, today) ==>
      View(Step(s, AddMoodLog(log)).moodLogs, dayOf, today) == AlreadyLogged(log.mood)
    ensures !OnDay(log, dayOf, today) ==>
      View(Step(s, AddMoodLog(log)).moodLogs, dayOf, today) == View(s.moodLogs, dayOf, today)
  {
    var logs := Step(s, AddMoodLog(log)).moodLogs;
    assert logs[1..] == s.moodLogs;
    assert logs[0] == log;
  }

  /** The page's own state and its save handler. */
  class MoodTracker {
    var selectedMood: Option<Mood>
    var notes: string

    constructor ()
      ensures selectedMood == None && notes == ""
    {
      selectedMood := None;
      notes := "";
    }

    /** A mood button's `onClick`. */
    method SelectMood(m: Mood)
      modifies this
      ensures selectedMood == Some(m) && notes == old(notes)
    {
      selectedMood := Some(m);
    }

    /** `handleSaveMood`: with no mood selected nothing is dispatched and
        nothing changes; otherwise one `ADD_MOOD_LOG` carrying the selected
        mood, the notes and the current time is dispatched, and the selection
        and notes are reset. */
    method SaveMood(store: Store, now: Timestamp, freshId: Id)
      modifies this, store
      ensures old(selectedMood).None? ==>
        && store.state == old(store.state) && store.writes == old(store.writes)
        && selectedMood == old(selectedMood) && notes == old(notes)
      ensures old(selectedMood).Some? ==>
        var log := MoodLog(freshId, old(selectedMood).value, Some(old(notes)), now);
        && store.state == Step(old(store.state), AddMoodLog(log))
        && store.writes == old(store.writes) + [PutMoodLog(log)]
        && selectedMood == None && notes == ""
    {
      if selectedMood.None? {
        return;
      }
      var log := MoodLog(freshId, selectedMood.value, Some(notes), now);
      store.EnhancedDispatch(AddMoodLog(log));
      selectedMood := None;
      notes := "";
    }
  }
}
