/** The application state container (src/components/app-provider.tsx): the
    state record, the closed action set, the pure reducer `appReducer`, the
    choice of document-store write made by `enhancedDispatch`, and the store
    object that runs both and the initial `fetchData`. */
module AppProvider {
  import opened Types

  /** `AppState`: three collections and the loading flag. */
  datatype State = State(
    moodLogs: seq<MoodLog>,
    journalEntries: seq<JournalEntry>,
    habits: seq<Habit>,
    loading: bool)

  /** `initialState`: empty collections, still loading. */
  const InitialState: State := State([], [], [], true)

  /** The payload of `TOGGLE_HABIT` as it exists at run time. The declared
      type has `id` and `completed`; the habits page sends `habitId`, `date`
      and `completed` instead, so `id` may be absent. The reducer and the
      writer read only `id` and `completed`. */
  datatype TogglePayload = TogglePayload(
    id: Option<Id>,
    habitId: Option<Id>,
    date: Option<string>,
    completed: bool)

  /** `AppAction`, plus `Other` for any tag the reducer does not handle. */
  datatype Action =
    | SetMoodLogs(logs: seq<MoodLog>)
    | SetJournalEntries(entries: seq<JournalEntry>)
    | SetHabits(newHabits: seq<Habit>)
    | AddMoodLog(log: MoodLog)
    | AddJournalEntry(entry: JournalEntry)
    | ToggleHabit(toggle: TogglePayload)
    | AddHabit(habit: Habit)
    | UpdateHabit(update: Habit)
    | DeleteHabit(habitId: Id)
    | SetLoading(flag: bool)
    | Other(tag: string)

  /** `habit.id === action.payload.id`: never true when the payload has no id. */
  predicate IdMatches(h: Habit, id: Option<Id>)
    ensures IdMatches(h, id) ==> id.Some? && id.value == h.id
    ensures id.None? ==> !IdMatches(h, id)
  {
    id == Some(h.id)
  }

  /** The `map` of `TOGGLE_HABIT`: every habit whose id is the payload's gets
      the new flag, with its id and name kept; every other habit is kept as
      it was. */
  function SetCompleted(hs: seq<Habit>, id: Option<Id>, completed: bool): (r: seq<Habit>)
    ensures |r| == |hs|
    ensures forall i :: 0 <= i < |hs| && IdMatches(hs[i], id) ==>
      r[i] == Habit(hs[i].id, hs[i].name, completed)
    ensures forall i :: 0 <= i < |hs| && !IdMatches(hs[i], id) ==> r[i] == hs[i]
  {
    seq(|hs|, i requires 0 <= i < |hs| =>
      if IdMatches(hs[i], id) then hs[i].(completed := completed) else hs[i])
  }

  /** The `map` of `UPDATE_HABIT`: every habit with the payload's id is
      replaced by the payload, so ids keep their positions; every other habit
      is kept as it was. */
  function ReplaceHabit(hs: seq<Habit>, update: Habit): (r: seq<Habit>)
    ensures |r| == |hs|
    ensures forall i :: 0 <= i < |hs| ==> r[i].id == hs[i].id
    ensures forall i :: 0 <= i < |hs| && hs[i].id == update.id ==> r[i] == update
    ensures forall i :: 0 <= i < |hs| && hs[i].id != update.id ==> r[i] == hs[i]
  {
    seq(|hs|, i requires 0 <= i < |hs| => if hs[i].id == update.id then update else hs[i])
  }

  /** The `filter` of `DELETE_HABIT`: keeps exactly the habits whose id differs. */
  function RemoveHabit(hs: seq<Habit>, id: Id): (r: seq<Habit>)
    ensures |r| <= |hs|
    ensures forall h :: h in r <==> h in hs && h.id != id
  {
    if hs == [] then []
    else (if hs[0].id != id then [hs[0]] else []) + RemoveHabit(hs[1..], id)
  }

  /** `appReducer`. Each action touches one field at most: the loading
      flag only through `SET_LOADING`, mood logs and journal entries only
      through their set and add actions, and the habits only through the
      habit actions; an in-place habit action keeps the list's length. */
  function Step(s: State, a: Action): (r: State)
    ensures !a.SetLoading? ==> r.loading == s.loading
    ensures !(a.SetMoodLogs? || a.AddMoodLog?) ==> r.moodLogs == s.moodLogs
    ensures !(a.SetJournalEntries? || a.AddJournalEntry?) ==> r.journalEntries == s.journalEntries
    ensures !(a.SetHabits? || a.ToggleHabit? || a.AddHabit? || a.UpdateHabit? || a.DeleteHabit?) ==>
      r.habits == s.habits
    ensures a.ToggleHabit? || a.UpdateHabit? ==> |r.habits| == |s.habits|
    ensures a.DeleteHabit? ==> |r.habits| <= |s.habits|
  {
    match a
    case SetLoading(flag) => s.(loading := flag)
    case SetMoodLogs(logs) => s.(moodLogs := logs)
    case SetJournalEntries(entries) => s.(journalEntries := entries)
    case SetHabits(hs) => s.(habits := hs)
    case AddMoodLog(log) => s.(moodLogs := [log] + s.moodLogs)
    case AddJournalEntry(entry) => s.(journalEntries := [entry] + s.journalEntries)
    case ToggleHabit(p) => s.(habits := SetCompleted(s.habits, p.id, p.completed))
    case AddHabit(h) => s.(habits := [h] + s.habits)
    case UpdateHabit(h) => s.(habits := ReplaceHabit(s.habits, h))
    case DeleteHabit(id) => s.(habits := RemoveHabit(s.habits, id))
    case Other(_) => s
  }

  // ---------------------------------------------------------------------
  // Properties of the reducer

  /** Each bulk `SET_*` action replaces its own field and nothing else. */
  lemma SetActionsReplaceOneField(s: State, logs: seq<MoodLog>, entries: seq<JournalEntry>,
                                  hs: seq<Habit>, flag: bool)
    ensures Step(s, SetMoodLogs(logs)) == State(logs, s.journalEntries, s.habits, s.loading)
    ensures Step(s, SetJournalEntries(entries)) == State(s.moodLogs, entries, s.habits, s.loading)
    ensures Step(s, SetHabits(hs)) == State(s.moodLogs, s.journalEntries, hs, s.loading)
    ensures Step(s, SetLoading(flag)) == State(s.moodLogs, s.journalEntries, s.habits, flag)
  {
  }

  /** Adding a mood log or journal entry puts it first and keeps the older
      records, in their order, behind it; nothing else changes. */
  lemma AddRecordPrepends(s: State, log: MoodLog, entry: JournalEntry)
    ensures var t := Step(s, AddMoodLog(log));
      && |t.moodLogs| == |s.moodLogs| + 1 && t.moodLogs[0] == log && t.moodLogs[1..] == s.moodLogs
      && t.journalEntries == s.journalEntries && t.habits == s.habits && t.loading == s.loading
    ensures var t := Step(s, AddJournalEntry(entry));
      && |t.journalEntries| == |s.journalEntries| + 1 && t.journalEntries[0] == entry
      && t.journalEntries[1..] == s.journalEntries
      && t.moodLogs == s.moodLogs && t.habits == s.habits && t.loading == s.loading
  {
  }

  /** `ADD_HABIT` prepends the habit and touches no other field. */
  lemma AddHabitPrepends(s: State, h: Habit)
    ensures var t := Step(s, AddHabit(h));
      && |t.habits| == |s.habits| + 1 && t.habits[0] == h && t.habits[1..] == s.habits
      && t.moodLogs == s.moodLogs && t.journalEntries == s.journalEntries && t.loading == s.loading
  {
  }

  /** `UPDATE_HABIT` keeps length and order: every habit with the payload's
      id becomes the payload, the others are untouched; afterwards the set of
      ids is the same. */
  lemma UpdateHabitReplacesMatching(s: State, u: Habit)
    ensures var t := Step(s, UpdateHabit(u));
      && |t.habits| == |s.habits|
      && (forall i :: 0 <= i < |s.habits| && s.habits[i].id == u.id ==> t.habits[i] == u)
      && (forall i :: 0 <= i < |s.habits| && s.habits[i].id != u.id ==> t.habits[i] == s.habits[i])
      && (forall i :: 0 <= i < |s.habits| ==> t.habits[i].id == s.habits[i].id)
      && t.moodLogs == s.moodLogs && t.journalEntries == s.journalEntries && t.loading == s.loading
  {
  }

  /** `TOGGLE_HABIT` keeps length, order, ids and names, and sets `completed`
      exactly on the habits whose id equals the payload's; with no match the
      habits are unchanged. */
  lemma ToggleHabitSetsCompleted(s: State, p: TogglePayload)
    ensures var t := Step(s, ToggleHabit(p));
      && |t.habits| == |s.habits|
      && (forall i :: 0 <= i < |s.habits| ==>
            t.habits[i].id == s.habits[i].id && t.habits[i].name == s.habits[i].name
            && t.habits[i].completed == (if IdMatches(s.habits[i], p.id) then p.completed
                                         else s.habits[i].completed))
      && t.moodLogs == s.moodLogs && t.journalEntries == s.journalEntries && t.loading == s.loading
    ensures (forall i :: 0 <= i < |s.habits| ==> !IdMatches(s.habits[i], p.id)) ==>
      Step(s, ToggleHabit(p)) == s
  {
    if forall i :: 0 <= i < |s.habits| ==> !IdMatches(s.habits[i], p.id) {
      assert SetCompleted(s.habits, p.id, p.completed) == s.habits;
    }
  }

  /** A toggle whose payload has no `id` never changes the state. */
  lemma ToggleWithoutIdIsNoOp(s: State, p: TogglePayload)
    requires p.id == None
    ensures Step(s, ToggleHabit(p)) == s
  {
    ToggleHabitSetsCompleted(s, p);
  }

  /** The filter distributes over concatenation, so the surviving habits keep
      their relative order. */
  lemma {:induction false} RemoveHabitKeepsOrder(a: seq<Habit>, b: seq<Habit>, id: Id)
    ensures RemoveHabit(a + b, id) == RemoveHabit(a, id) + RemoveHabit(b, id)
  {
    if a == [] {
      assert a + b == b;
    } else {
      assert (a + b)[1..] == a[1..] + b;
      RemoveHabitKeepsOrder(a[1..], b, id);
    }
  }

  /** Removing an id that no habit carries changes nothing. */
  lemma {:induction false} RemoveAbsentIsIdentity(hs: seq<Habit>, id: Id)
    requires forall i :: 0 <= i < |hs| ==> hs[i].id != id
    ensures RemoveHabit(hs, id) == hs
  {
    if hs != [] {
      RemoveAbsentIsIdentity(hs[1..], id);
    }
  }

  /** After `DELETE_HABIT(id)` no habit has that id, the other fields are
      unchanged, and deleting twice is the same as deleting once. */
  lemma DeleteHabitRemoves(s: State, id: Id)
    ensures var t := Step(s, DeleteHabit(id));
      && (forall h :: h in t.habits ==> h.id != id)
      && (forall h :: h in s.habits && h.id != id ==> h in t.habits)
      && t.moodLogs == s.moodLogs && t.journalEntries == s.journalEntries && t.loading == s.loading
    ensures Step(Step(s, DeleteHabit(id)), DeleteHabit(id)) == Step(s, DeleteHabit(id))
  {
    var r := RemoveHabit(s.habits, id);
    assert forall i :: 0 <= i < |r| ==> r[i] in r;
    RemoveAbsentIsIdentity(r, id);
  }

  /** An unhandled action tag returns the state unchanged. */
  lemma OtherIsNoOp(s: State, tag: string)
    ensures Step(s, Other(tag)) == s
  {
  }

  // ---------------------------------------------------------------------
  // Write routing of `enhancedDispatch`

  datatype Collection = MoodLogsCollection | JournalEntriesCollection | HabitsCollection

  /** The document-store writes `enhancedDispatch` can issue: `setDoc`
      (plain or merging) and `deleteDoc`, each on one document. */
  datatype Write =
    | PutHabit(habit: Habit)          // addHabitToDB
    | MergeHabit(merged: Habit)       // updateHabitInDB
    | RemoveHabitDoc(removedId: Id)   // deleteHabitFromDB
    | PutJournalEntry(entry: JournalEntry)
    | PutMoodLog(log: MoodLog)
  {
    function Target(): Collection
    {
      match this
      case PutHabit(_) => HabitsCollection
      case MergeHabit(_) => HabitsCollection
      case RemoveHabitDoc(_) => HabitsCollection
      case PutJournalEntry(_) => JournalEntriesCollection
      case PutMoodLog(_) => MoodLogsCollection
    }

    /** The document id written: always the record's own id. */
    function DocId(): Id
    {
      match this
      case PutHabit(h) => h.id
      case MergeHabit(h) => h.id
      case RemoveHabitDoc(id) => id
      case PutJournalEntry(e) => e.id
      case PutMoodLog(l) => l.id
    }
  }

  /** `state.habits.find(h => h.id === action.payload.id)`. */
  function FindHabit(hs: seq<Habit>, id: Option<Id>): (r: Option<Habit>)
    ensures r.None? <==> forall i :: 0 <= i < |hs| ==> !IdMatches(hs[i], id)
    ensures r.Some? ==> exists i :: (0 <= i < |hs| && hs[i] == r.value && IdMatches(hs[i], id)
      && forall j :: 0 <= j < i ==> !IdMatches(hs[j], id))
  {
    if hs == [] then None
    else if IdMatches(hs[0], id) then Some(hs[0])
    else
      var r := FindHabit(hs[1..], id);
      assert forall i :: 1 <= i < |hs| ==> hs[i] == hs[1..][i - 1];
      r
  }

  /** The write `enhancedDispatch` issues for an action, chosen from the state
      as it was before the dispatch (the `state` its closure captured). */
  function WriteFor(s: State, a: Action): (w: Option<Write>)
    ensures a.SetMoodLogs? || a.SetJournalEntries? || a.SetHabits? || a.SetLoading? || a.Other? ==>
      w == None
    ensures a.ToggleHabit? && w.Some? ==>
      w.value.MergeHabit? && Some(w.value.DocId()) == a.toggle.id && w.value.merged.completed == a.toggle.completed
  {
    match a
    case AddHabit(h) => Some(PutHabit(h))
    case UpdateHabit(h) => Some(MergeHabit(h))
    case ToggleHabit(p) =>
      (match FindHabit(s.habits, p.id)
       case Some(h) => Some(MergeHabit(h.(completed := p.completed)))
       case None => None)
    case DeleteHabit(id) => Some(RemoveHabitDoc(id))
    case AddJournalEntry(e) => Some(PutJournalEntry(e))
    case AddMoodLog(l) => Some(PutMoodLog(l))
    case _ => None
  }

  /** Adds, updates and deletes each write one document keyed by the payload's
      id; the bulk `SET_*` actions and unknown tags write nothing. */
  lemma WriteRouting(s: State, a: Action)
    ensures a.AddHabit? ==> (WriteFor(s, a) == Some(PutHabit(a.habit))
      && WriteFor(s, a).value.Target() == HabitsCollection && WriteFor(s, a).value.DocId() == a.habit.id)
    ensures a.UpdateHabit? ==> (WriteFor(s, a) == Some(MergeHabit(a.update))
      && WriteFor(s, a).value.Target() == HabitsCollection && WriteFor(s, a).value.DocId() == a.update.id)
    ensures a.DeleteHabit? ==> (WriteFor(s, a) == Some(RemoveHabitDoc(a.habitId))
      && WriteFor(s, a).value.Target() == HabitsCollection && WriteFor(s, a).value.DocId() == a.habitId)
    ensures a.AddJournalEntry? ==> (WriteFor(s, a) == Some(PutJournalEntry(a.entry))
      && WriteFor(s, a).value.Target() == JournalEntriesCollection
      && WriteFor(s, a).value.DocId() == a.entry.id)
    ensures a.AddMoodLog? ==> (WriteFor(s, a) == Some(PutMoodLog(a.log))
      && WriteFor(s, a).value.Target() == MoodLogsCollection && WriteFor(s, a).value.DocId() == a.log.id)
    ensures a.SetMoodLogs? || a.SetJournalEntries? || a.SetHabits? || a.SetLoading? || a.Other? ==>
      WriteFor(s, a) == None
  {
  }

  /** A toggle writes only when its id names a habit of the pre-dispatch
      state; the written document is that first matching habit with the new
      flag, and it is also what the reducer put in the new state. */
  lemma ToggleWriteOnlyIfFound(s: State, p: TogglePayload)
    ensures WriteFor(s, ToggleHabit(p)).Some? <==>
      exists i :: 0 <= i < |s.habits| && IdMatches(s.habits[i], p.id)
    ensures WriteFor(s, ToggleHabit(p)).Some? ==>
      var w := WriteFor(s, ToggleHabit(p)).value;
      && w.MergeHabit? && Some(w.DocId()) == p.id && w.merged.completed == p.completed
      && w.merged in Step(s, ToggleHabit(p)).habits
  {
    var found := FindHabit(s.habits, p.id);
    if found.Some? {
      var i :| 0 <= i < |s.habits| && s.habits[i] == found.value && IdMatches(s.habits[i], p.id);
      assert Step(s, ToggleHabit(p)).habits[i] == found.value.(completed := p.completed);
    }
  }

  /** The writes issued for one dispatch, as a list of zero or one commands. */
  function Issued(w: Option<Write>): (ws: seq<Write>)
    ensures |ws| <= 1
    ensures w.None? <==> ws == []
    ensures w.Some? ==> ws == [w.value]
  {
    match w
    case Some(x) => [x]
    case None => []
  }

  /** The provider: the reducer's state plus the log of document-store writes
      issued so far, oldest first. */
  class Store {
    var state: State
    var writes: seq<Write>

    /** `useReducer(appReducer, initialState)`. */
    constructor ()
      ensures state == InitialState && writes == []
    {
      state := InitialState;
      writes := [];
    }

    /** The reducer's own `dispatch`: a local step, no write. */
    method Dispatch(a: Action)
      modifies this
      ensures state == Step(old(state), a)
      ensures writes == old(writes)
    {
      state := Step(state, a);
    }

    /** `enhancedDispatch`: the optimistic local step first, then at most one
        write chosen from the pre-dispatch state. Whether the write later
        fails does not matter: the local step is never reverted. */
    method EnhancedDispatch(a: Action)
      modifies this
      ensures state == Step(old(state), a)
      ensures writes == old(writes) + Issued(WriteFor(old(state), a))
    {
      var before := state;
      Dispatch(a);
      writes := writes + Issued(WriteFor(before, a));
    }

    /** `fetchData`: the three collection reads in order (`None` is a read
        that threw); each successful read is dispatched as a bulk replace,
        the first failure skips the rest, and `loading` is cleared in every
        case. No writes are issued. */
    method FetchData(moodRead: Option<seq<MoodLog>>, journalRead: Option<seq<JournalEntry>>,
                     habitRead: Option<seq<Habit>>)
      modifies this
      ensures !state.loading
      ensures state.moodLogs == (if moodRead.Some? then moodRead.value else old(state.moodLogs))
      ensures state.journalEntries ==
        (if moodRead.Some? && journalRead.Some? then journalRead.value else old(state.journalEntries))
      ensures state.habits ==
        (if moodRead.Some? && journalRead.Some? && habitRead.Some? then habitRead.value
         else old(state.habits))
      ensures writes == old(writes)
    {
      if moodRead.Some? {
        Dispatch(SetMoodLogs(moodRead.value));
        if journalRead.Some? {
          Dispatch(SetJournalEntries(journalRead.value));
          if habitRead.Some? {
            Dispatch(SetHabits(habitRead.value));
          }
        }
      }
      Dispatch(SetLoading(false));
    }
  }
}
