/** The habits page (src/components/habits-client.tsx): the per-day view that
    joins habits with completion records, the progress figures, the
    today-only gating of the controls, and the form handlers that dispatch. */
module HabitsClient {
  import opened Types
  import opened JsText
  import opened AppProvider

  /** A per-day completion record. The page reads these from
      `state.habitCompletions`, a field the provider's state does not have, so
      here they are a separate input. */
  datatype Completion = Completion(habitId: Id, date: string, completed: bool)

  predicate CompletionMatches(c: Completion, habitId: Id, date: string)
  {
    c.habitId == habitId && c.date == date
  }

  /** `habitCompletions.find(c => c.habitId === habit.id && c.date === selectedDateStr)`. */
  function FindCompletion(cs: seq<Completion>, habitId: Id, date: string): (r: Option<Completion>)
    ensures r.None? <==> forall j :: 0 <= j < |cs| ==> !CompletionMatches(cs[j], habitId, date)
    ensures r.Some? ==> exists j :: (0 <= j < |cs| && cs[j] == r.value
      && CompletionMatches(cs[j], habitId, date)
      && forall k :: 0 <= k < j ==> !CompletionMatches(cs[k], habitId, date))
  {
    if cs == [] then None
    else if CompletionMatches(cs[0], habitId, date) then Some(cs[0])
    else
      var r := FindCompletion(cs[1..], habitId, date);
      assert forall j :: 1 <= j < |cs| ==> cs[j] == cs[1..][j - 1];
      r
  }

  /** `habitsForSelectedDate`: every habit, in order, with `completed` taken
      from its first completion record for the selected day, or false. */
  function HabitsForDay(habits: seq<Habit>, cs: seq<Completion>, date: string): (view: seq<Habit>)
    ensures |view| == |habits|
    ensures forall i :: 0 <= i < |habits| ==>
      view[i].id == habits[i].id && view[i].name == habits[i].name
    ensures forall i :: 0 <= i < |habits| ==>
      (view[i].completed <==> exists j :: (0 <= j < |cs| && CompletionMatches(cs[j], habits[i].id, date)
        && cs[j].completed
        && forall k :: 0 <= k < j ==> !CompletionMatches(cs[k], habits[i].id, date)))
  {
    seq(|habits|, i requires 0 <= i < |habits| =>
      var c := FindCompletion(cs, habits[i].id, date);
      habits[i].(completed := if c.Some? then c.value.completed else false))
  }

  /** The per-day view as the page computes it from the provider. The page
      reads `state.habitCompletions`, which the provider's state does not
      carry (`None` here, `undefined` at run time): `map` over an empty list
      never calls its callback, but with a habit present the callback's
      `find` throws, and the page cannot render (`None`). */
  function PageView(habits: seq<Habit>, completions: Option<seq<Completion>>, date: string): (r: Option<seq<Habit>>)
    ensures r.None? <==> completions.None? && |habits| > 0
    ensures completions.Some? ==> r == Some(HabitsForDay(habits, completions.value, date))
    ensures |habits| == 0 ==> r == Some([])
  {
    if completions.Some? then Some(HabitsForDay(habits, completions.value, date))
    else if |habits| == 0 then Some([])
    else None
  }

  /** A habit with no completion record for the day shows as not completed. */
  lemma NoRecordMeansNotCompleted(habits: seq<Habit>, cs: seq<Completion>, date: string, i: int)
    requires 0 <= i < |habits|
    requires forall j :: 0 <= j < |cs| ==> !CompletionMatches(cs[j], habits[i].id, date)
    ensures !HabitsForDay(habits, cs, date)[i].completed
  {
  }

  /** `completedHabits`: `view.filter(h => h.completed).length`. */
  function CountCompleted(view: seq<Habit>): (n: nat)
    ensures n <= |view|
    ensures n == |view| <==> forall i :: 0 <= i < |view| ==> view[i].completed
    ensures n == 0 <==> forall i :: 0 <= i < |view| ==> !view[i].completed
  {
    if view == [] then 0
    else
      var rest := CountCompleted(view[1..]);
      assert forall i :: 1 <= i < |view| ==> view[i] == view[1..][i - 1];
      (if view[0].completed then 1 else 0) + rest
  }

  /** `progress`: the completed percentage, 0 when there are no habits. The
      source computes it in floating point; here it is exact. */
  function Progress(view: seq<Habit>): (p: real)
    ensures 0.0 <= p <= 100.0
    ensures |view| == 0 ==> p == 0.0
    ensures p == 100.0 <==> |view| > 0 && forall i :: 0 <= i < |view| ==> view[i].completed
  {
    var completed := CountCompleted(view);
    var total := |view|;
    if total > 0 then
      RatioBounds(completed, total);
      (completed as real / total as real) * 100.0
    else 0.0
  }

  /** A share of `total` lies in [0, 1] and is 1 only for the whole. */
  lemma RatioBounds(part: nat, total: nat)
    requires 0 < total && part <= total
    ensures 0.0 <= part as real / total as real <= 1.0
    ensures part as real / total as real == 1.0 <==> part == total
  {
    var q := part as real / total as real;
    assert q * total as real == part as real;
    if q == 1.0 {
      assert part as real == total as real;
    }
  }

  /** The controls of the page. */
  datatype Control = NewHabitButton | EditButton | DeleteButton | Checkbox | SaveButton | CancelButton

  /** `selectedDate || new Date()`: the calendar selection, or today when
      nothing is selected. */
  function SelectedDay(selected: Option<Day>, today: Day): (d: Day)
    ensures selected.None? ==> d == today
    ensures selected.Some? ==> d == selected.value
  {
    if selected.Some? then selected.value else today
  }

  /** Whether a control can be used: the New Habit button and the checkbox
      carry `disabled={!canEditHabits}`, the edit and delete buttons are
      rendered only when `canEditHabits` holds, and save and cancel live
      inside the dialog and are always live. */
  function ControlEnabled(c: Control, selected: Option<Day>, today: Day): (enabled: bool)
    ensures c == SaveButton || c == CancelButton ==> enabled
    ensures !enabled ==> selected.Some? && selected.value != today
  {
    match c
    case SaveButton => true
    case CancelButton => true
    case _ => SelectedDay(selected, today) == today
  }

  /** Habits can be added, edited, deleted or toggled only on today's page. */
  lemma EditingOnlyToday(c: Control, selected: Option<Day>, today: Day)
    requires c in {NewHabitButton, EditButton, DeleteButton, Checkbox}
    ensures ControlEnabled(c, selected, today) <==> selected.None? || selected.value == today
  {
  }

  /** The action `handleHabitToggle` dispatches, as written: the payload has
      `habitId` and `date` but no `id`. */
  function ToggleActionAsWritten(habitId: Id, date: string, checked: bool): (a: Action)
    ensures a.ToggleHabit? && a.toggle.id.None? && a.toggle.completed == checked
    ensures a.toggle.habitId == Some(habitId) && a.toggle.date == Some(date)
  {
    ToggleHabit(TogglePayload(None, Some(habitId), Some(date), checked))
  }

  /** The toggle as written is lost: the reducer finds no habit with the
      payload's (absent) id, so the state is unchanged, and no write is issued. */
  lemma HabitToggleIsLost(s: State, habitId: Id, date: string, checked: bool)
    ensures Step(s, ToggleActionAsWritten(habitId, date, checked)) == s
    ensures WriteFor(s, ToggleActionAsWritten(habitId, date, checked)) == None
  {
    ToggleWithoutIdIsNoOp(s, TogglePayload(None, Some(habitId), Some(date), checked));
  }

  /** The toggle with the habit's id placed where the reducer reads it. */
  function ToggleActionById(habitId: Id, date: string, checked: bool): Action
  {
    ToggleHabit(TogglePayload(Some(habitId), Some(habitId), Some(date), checked))
  }

  /** With the id in place the toggle takes effect: every habit with that id
      now has the checked value, the others are unchanged, and a write is
      issued exactly when such a habit exists. */
  lemma ToggleByIdTakesEffect(s: State, habitId: Id, date: string, checked: bool)
    ensures var t := Step(s, ToggleActionById(habitId, date, checked));
      && |t.habits| == |s.habits|
      && (forall i :: 0 <= i < |s.habits| && s.habits[i].id == habitId ==> t.habits[i].completed == checked)
      && (forall i :: 0 <= i < |s.habits| && s.habits[i].id != habitId ==> t.habits[i] == s.habits[i])
    ensures WriteFor(s, ToggleActionById(habitId, date, checked)).Some? <==>
      exists i :: 0 <= i < |s.habits| && s.habits[i].id == habitId
  {
    var p := TogglePayload(Some(habitId), Some(habitId), Some(date), checked);
    ToggleHabitSetsCompleted(s, p);
    ToggleWriteOnlyIfFound(s, p);
    assert forall i :: 0 <= i < |s.habits| ==> (IdMatches(s.habits[i], p.id) <==> s.habits[i].id == habitId);
  }

  /** The id fix alone does not reach the page: the view takes `completed`
      from the completion records, never from the habit, so a toggle that
      sets the habit's own flag leaves every day's view as it was. */
  lemma ToggleByIdNotShown(s: State, cs: seq<Completion>, habitId: Id, date: string, checked: bool, shown: string)
    ensures HabitsForDay(Step(s, ToggleActionById(habitId, date, checked)).habits, cs, shown)
         == HabitsForDay(s.habits, cs, shown)
  {
    var hs := Step(s, ToggleActionById(habitId, date, checked)).habits;
    var v1 := HabitsForDay(hs, cs, shown);
    var v0 := HabitsForDay(s.habits, cs, shown);
    forall i | 0 <= i < |v0|
      ensures v1[i] == v0[i]
    {
      assert hs[i].id == s.habits[i].id && hs[i].name == s.habits[i].name;
    }
  }

  /** Setting the flag of every (habit, day) record already present; the
      others are kept. */
  function MarkCompletion(cs: seq<Completion>, habitId: Id, date: string, completed: bool): (r: seq<Completion>)
    ensures |r| == |cs|
    ensures forall j :: 0 <= j < |cs| ==> r[j].habitId == cs[j].habitId && r[j].date == cs[j].date
    ensures forall j :: 0 <= j < |cs| && CompletionMatches(cs[j], habitId, date) ==> r[j].completed == completed
    ensures forall j :: 0 <= j < |cs| && !CompletionMatches(cs[j], habitId, date) ==> r[j] == cs[j]
  {
    if cs == [] then []
    else
      var rest := MarkCompletion(cs[1..], habitId, date, completed);
      assert forall j :: 1 <= j < |cs| ==> cs[j] == cs[1..][j - 1];
      [if CompletionMatches(cs[0], habitId, date) then cs[0].(completed := completed) else cs[0]] + rest
  }

  /** The per-day toggle the page evidently intends: the record for (habit,
      day) gets the checked value, and is created when there is none; no
      record is removed. */
  function ToggleCompletion(cs: seq<Completion>, habitId: Id, date: string, completed: bool): (r: seq<Completion>)
    ensures FindCompletion(cs, habitId, date).Some? ==> |r| == |cs|
    ensures FindCompletion(cs, habitId, date).None? ==> |r| == |cs| + 1
    ensures FindCompletion(cs, habitId, date).None? ==>
      r[..|cs|] == cs && r[|cs|] == Completion(habitId, date, completed)
    ensures FindCompletion(cs, habitId, date).Some? ==> forall j :: 0 <= j < |cs| ==>
      && r[j].habitId == cs[j].habitId && r[j].date == cs[j].date
      && (CompletionMatches(cs[j], habitId, date) ==> r[j].completed == completed)
      && (!CompletionMatches(cs[j], habitId, date) ==> r[j] == cs[j])
  {
    if FindCompletion(cs, habitId, date).Some? then MarkCompletion(cs, habitId, date, completed)
    else cs + [Completion(habitId, date, completed)]
  }

  /** After marking, the lookup of the marked key finds the new flag; every
      other key finds what it found before. */
  lemma {:induction false} FindAfterMark(cs: seq<Completion>, habitId: Id, date: string, completed: bool, h: Id, d: string)
    ensures FindCompletion(MarkCompletion(cs, habitId, date, completed), h, d)
         == if h == habitId && d == date then
              (if FindCompletion(cs, h, d).Some? then Some(Completion(h, d, completed)) else None)
            else FindCompletion(cs, h, d)
  {
    if cs != [] {
      FindAfterMark(cs[1..], habitId, date, completed, h, d);
      var m := MarkCompletion(cs, habitId, date, completed);
      assert m[1..] == MarkCompletion(cs[1..], habitId, date, completed);
    }
  }

  /** Appending a record only matters for a key nothing earlier matches. */
  lemma {:induction false} FindAfterAppend(cs: seq<Completion>, c: Completion, h: Id, d: string)
    ensures FindCompletion(cs + [c], h, d)
         == if FindCompletion(cs, h, d).Some? then FindCompletion(cs, h, d)
            else if CompletionMatches(c, h, d) then Some(c) else None
  {
    if cs != [] {
      assert (cs + [c])[1..] == cs[1..] + [c];
      FindAfterAppend(cs[1..], c, h, d);
    }
  }

  /** The toggle's effect on lookups: the toggled key now finds the checked
      value, every other key is unaffected. */
  lemma FindAfterToggle(cs: seq<Completion>, habitId: Id, date: string, completed: bool, h: Id, d: string)
    ensures FindCompletion(ToggleCompletion(cs, habitId, date, completed), h, d)
         == if h == habitId && d == date then Some(Completion(h, d, completed)) else FindCompletion(cs, h, d)
  {
    if FindCompletion(cs, habitId, date).Some? {
      FindAfterMark(cs, habitId, date, completed, h, d);
    } else {
      FindAfterAppend(cs, Completion(habitId, date, completed), h, d);
    }
  }

  /** No two records share a (habit, day) key. */
  predicate UniqueKeys(cs: seq<Completion>)
  {
    forall j, k :: 0 <= j < k < |cs| ==> !CompletionMatches(cs[k], cs[j].habitId, cs[j].date)
  }

  /** The toggle keeps (habit, day) keys unique: it updates the record of an
      existing key in place and adds a record only for a key not yet present. */
  lemma ToggleKeepsKeysUnique(cs: seq<Completion>, habitId: Id, date: string, completed: bool)
    requires UniqueKeys(cs)
    ensures UniqueKeys(ToggleCompletion(cs, habitId, date, completed))
  {
    var r := ToggleCompletion(cs, habitId, date, completed);
    if FindCompletion(cs, habitId, date).None? {
      assert forall j :: 0 <= j < |cs| ==> r[j] == cs[j];
    }
  }

  /** Marking records that already carry the flag changes nothing. */
  lemma {:induction false} MarkSettled(cs: seq<Completion>, habitId: Id, date: string, completed: bool)
    requires forall j :: 0 <= j < |cs| && CompletionMatches(cs[j], habitId, date) ==> cs[j].completed == completed
    ensures MarkCompletion(cs, habitId, date, completed) == cs
  {
    if cs != [] {
      assert forall j :: 1 <= j < |cs| ==> cs[j] == cs[1..][j - 1];
      MarkSettled(cs[1..], habitId, date, completed);
    }
  }

  /** The intended toggle is idempotent: toggling a (habit, day) twice with
      the same value leaves exactly what toggling once did, so no duplicate
      record appears. */
  lemma ToggleCompletionIdempotent(cs: seq<Completion>, habitId: Id, date: string, checked: bool)
    ensures ToggleCompletion(ToggleCompletion(cs, habitId, date, checked), habitId, date, checked)
         == ToggleCompletion(cs, habitId, date, checked)
  {
    var cs' := ToggleCompletion(cs, habitId, date, checked);
    FindAfterToggle(cs, habitId, date, checked, habitId, date);
    if FindCompletion(cs, habitId, date).None? {
      assert forall j :: 0 <= j < |cs'| && CompletionMatches(cs'[j], habitId, date) ==> j == |cs|;
    }
    MarkSettled(cs', habitId, date, checked);
  }

  /** With the intended per-day toggle the page shows the change: on the
      toggled day every habit with that id shows the checked value and the
      others are unchanged, and every other day's view is as it was. */
  lemma ToggleCompletionShows(habits: seq<Habit>, cs: seq<Completion>, habitId: Id, date: string, checked: bool)
    ensures var v := HabitsForDay(habits, ToggleCompletion(cs, habitId, date, checked), date);
      && |v| == |habits|
      && (forall i :: 0 <= i < |habits| && habits[i].id == habitId ==> v[i].completed == checked)
      && (forall i :: 0 <= i < |habits| && habits[i].id != habitId ==> v[i] == HabitsForDay(habits, cs, date)[i])
    ensures forall d :: d != date ==>
      HabitsForDay(habits, ToggleCompletion(cs, habitId, date, checked), d) == HabitsForDay(habits, cs, d)
  {
    var cs' := ToggleCompletion(cs, habitId, date, checked);
    forall i | 0 <= i < |habits|
      ensures HabitsForDay(habits, cs', date)[i].completed == (if habits[i].id == habitId then checked
                else HabitsForDay(habits, cs, date)[i].completed)
    {
      FindAfterToggle(cs, habitId, date, checked, habits[i].id, date);
    }
    forall d | d != date
      ensures HabitsForDay(habits, cs', d) == HabitsForDay(habits, cs, d)
    {
      forall i | 0 <= i < |habits|
        ensures HabitsForDay(habits, cs', d)[i] == HabitsForDay(habits, cs, d)[i]
      {
        FindAfterToggle(cs, habitId, date, checked, habits[i].id, d);
      }
    }
  }

  /** Renaming from the page stores the view's flag: `handleOpenForm`
      receives the habit from the per-day view, whose `completed` came from
      that day's record, and `UPDATE_HABIT` writes it over the habit's own
      stored flag. */
  lemma RenameStoresViewFlag(s: State, cs: seq<Completion>, date: string, i: int, newName: string)
    requires 0 <= i < |s.habits|
    ensures var e := HabitsForDay(s.habits, cs, date)[i];
      var t := Step(s, UpdateHabit(e.(name := newName)));
      forall j :: 0 <= j < |s.habits| && s.habits[j].id == s.habits[i].id ==>
        t.habits[j].completed == e.completed && t.habits[j].name == newName
  {
  }

  /** The page's own state and its handlers. */
  class HabitsPage {
    var selected: Option<Day>
    var isFormOpen: bool
    var editingHabit: Option<Habit>
    var habitName: string

    constructor (today: Day)
      ensures selected == Some(today) && !isFormOpen && editingHabit == None && habitName == ""
    {
      selected := Some(today);
      isFormOpen := false;
      editingHabit := None;
      habitName := "";
    }

    /** `handleOpenForm`: edit the given habit, or start a new one. */
    method OpenForm(habit: Option<Habit>)
      modifies this
      ensures editingHabit == habit && isFormOpen && selected == old(selected)
      ensures habitName == (if habit.Some? then habit.value.name else "")
    {
      editingHabit := habit;
      habitName := if habit.Some? then habit.value.name else "";
      isFormOpen := true;
    }

    /** `handleCloseForm`. */
    method CloseForm()
      modifies this
      ensures !isFormOpen && editingHabit == None && habitName == "" && selected == old(selected)
    {
      isFormOpen := false;
      editingHabit := None;
      habitName := "";
    }

    /** `handleSaveHabit`: a blank name dispatches nothing and keeps the form
        as it is; otherwise an edit dispatches `UPDATE_HABIT` with the edited
        habit renamed, a new habit dispatches `ADD_HABIT` with the fresh id,
        and the form is closed and cleared. */
    method SaveHabit(store: Store, freshId: Id)
      modifies this, store
      ensures IsBlank(old(habitName)) ==>
        && store.state == old(store.state) && store.writes == old(store.writes)
        && isFormOpen == old(isFormOpen) && editingHabit == old(editingHabit)
        && habitName == old(habitName)
      ensures !IsBlank(old(habitName)) ==>
        var a := if old(editingHabit).Some? then UpdateHabit(old(editingHabit).value.(name := old(habitName)))
                 else AddHabit(Habit(freshId, old(habitName), false));
        && store.state == Step(old(store.state), a)
        && store.writes == old(store.writes) + Issued(WriteFor(old(store.state), a))
        && !isFormOpen && editingHabit == None && habitName == ""
      ensures selected == old(selected)
    {
      if IsBlank(habitName) {
        return;
      }
      if editingHabit.Some? {
        store.EnhancedDispatch(UpdateHabit(editingHabit.value.(name := habitName)));
      } else {
        store.EnhancedDispatch(AddHabit(Habit(freshId, habitName, false)));
      }
      CloseForm();
    }

    /** `handleHabitToggle`, as written: dispatches the toggle carrying the
        selected day's key and the checked value. */
    method HabitToggle(store: Store, habitId: Id, checked: bool, dayKey: Day -> string, today: Day)
      modifies store
      ensures var a := ToggleActionAsWritten(habitId, dayKey(SelectedDay(selected, today)), checked);
        && store.state == Step(old(store.state), a)
        && store.writes == old(store.writes) + Issued(WriteFor(old(store.state), a))
    {
      var dateKey := dayKey(SelectedDay(selected, today));
      store.EnhancedDispatch(ToggleActionAsWritten(habitId, dateKey, checked));
    }

    /** `handleDeleteHabit`. */
    method DeleteHabitById(store: Store, habitId: Id)
      modifies store
      ensures store.state == Step(old(store.state), DeleteHabit(habitId))
      ensures store.writes == old(store.writes) + [RemoveHabitDoc(habitId)]
    {
      store.EnhancedDispatch(DeleteHabit(habitId));
    }
  }
}
