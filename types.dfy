/** Record shapes shared by the state container and the client components
    (src/lib/types.ts), plus the small Option wrapper the model uses for
    JavaScript's `undefined`. */
module Types {

  datatype Option<+T> = None | Some(value: T)

  /** Document ids are the decimal strings produced by `Date.now().toString()`. */
  type Id = string

  /** A point in time, in milliseconds. */
  type Timestamp = int

  /** A calendar day in the local time zone, numbered consecutively. */
  type Day = int

  /** The moods' string values are pairwise distinct, so a mood is known
      from its name (and the five chart labels differ). */
  lemma MoodNameInjective(m1: Mood, m2: Mood)
    ensures MoodName(m1) == MoodName(m2) <==> m1 == m2
  {
    if m1 != m2 {
      assert MoodName(m1)[0] != MoodName(m2)[0];
    }
  }

  /** The five moods, in declaration order. */
  datatype Mood = Ecstatic | Happy | Neutral | Sad | Anxious

  /** The string value of a mood as it appears in the source. */
  function MoodName(m: Mood): (name: string)
    ensures |name| > 0
  {
    match m
    case Ecstatic => "ecstatic"
    case Happy => "happy"
    case Neutral => "neutral"
    case Sad => "sad"
    case Anxious => "anxious"
  }

  /** Every mood, in the order the source lists them. */
  const AllMoods: seq<Mood> := [Ecstatic, Happy, Neutral, Sad, Anxious]

  /** `notes` is optional in the source; the mood tracker always fills it. */
  datatype MoodLog = MoodLog(id: Id, mood: Mood, notes: Option<string>, date: Timestamp)

  /** A log falls on day `d`: `toDateString` (or `isSameDay`) of its date,
      with the calendar given by `dayOf`. */
  predicate OnDay(log: MoodLog, dayOf: Timestamp -> Day, d: Day)
  {
    dayOf(log.date) == d
  }

  datatype JournalEntry = JournalEntry(id: Id, title: string, content: string, date: Timestamp)

  datatype Habit = Habit(id: Id, name: string, completed: bool)
}
