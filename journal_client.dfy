/** The journal page (src/components/journal-client.tsx): the save handler
    with its non-blank guard and reset, and the writing-prompt request with
    its mood fallback. */
module JournalClient {
  import opened Types
  import opened JsText
  import opened AppProvider

  /** `state.moodLogs[0]?.mood || 'neutral'`: the mood sent with a prompt
      request. */
  function PromptMood(logs: seq<MoodLog>): (m: Mood)
    ensures logs == [] ==> m == Neutral
    ensures logs != [] ==> m == logs[0].mood
  {
    if logs != [] then logs[0].mood else Neutral
  }

  /** The prompt follows the most recently saved mood: after `ADD_MOOD_LOG`
      the request carries that log's mood, whatever was logged before. */
  lemma PromptUsesLatestMood(s: State, log: MoodLog)
    ensures PromptMood(Step(s, AddMoodLog(log)).moodLogs) == log.mood
  {
  }

  /** A save is accepted exactly when both fields have a non-whitespace
      character. */
  lemma SaveGuard(title: string, content: string)
    ensures !(IsBlank(title) || IsBlank(content)) <==>
      (exists i :: 0 <= i < |title| && !IsWhitespace(title[i]))
      && (exists i :: 0 <= i < |content| && !IsWhitespace(content[i]))
  {
    BlankIffAllWhitespace(title);
    BlankIffAllWhitespace(content);
  }

  /** The dialog's state. */
  class JournalPage {
    var isDialogOpen: bool
    var title: string
    var content: string
    var isPromptLoading: bool

    constructor ()
      ensures !isDialogOpen && title == "" && content == "" && !isPromptLoading
    {
      isDialogOpen := false;
      title := "";
      content := "";
      isPromptLoading := false;
    }

    /** `handleSaveEntry`: a blank title or content dispatches nothing and
        keeps the fields; otherwise one `ADD_JOURNAL_ENTRY` with the title and
        content as typed (untrimmed) is dispatched, the fields are emptied and
        the dialog closes. */
    method SaveEntry(store: Store, now: Timestamp, freshId: Id)
      modifies this, store
      ensures IsBlank(old(title)) || IsBlank(old(content)) ==>
        && store.state == old(store.state) && store.writes == old(store.writes)
        && title == old(title) && content == old(content) && isDialogOpen == old(isDialogOpen)
      ensures !(IsBlank(old(title)) || IsBlank(old(content))) ==>
        var entry := JournalEntry(freshId, old(title), old(content), now);
        && store.state == Step(old(store.state), AddJournalEntry(entry))
        && store.writes == old(store.writes) + [PutJournalEntry(entry)]
        && title == "" && content == "" && !isDialogOpen
      ensures isPromptLoading == old(isPromptLoading)
    {
      if IsBlank(title) || IsBlank(content) {
        return;
      }
      var entry := JournalEntry(freshId, title, content, now);
      store.EnhancedDispatch(AddJournalEntry(entry));
      title := "";
      content := "";
      isDialogOpen := false;
    }

    /** `handleGeneratePrompt` up to its `await`: the loading flag is set and
        the request's mood is returned. */
    method BeginPrompt(logs: seq<MoodLog>) returns (userMood: Mood)
      modifies this
      ensures userMood == PromptMood(logs)
      ensures isPromptLoading
      ensures title == old(title) && content == old(content) && isDialogOpen == old(isDialogOpen)
    {
      isPromptLoading := true;
      userMood := PromptMood(logs);
    }

    /** `handleGeneratePrompt` after its `await`: the reply (`None` when the
        request failed) replaces the content, a failure leaves it as it is,
        and the loading flag is cleared either way. */
    method CompletePrompt(reply: Option<string>)
      modifies this
      ensures content == (if reply.Some? then reply.value else old(content))
      ensures !isPromptLoading
      ensures title == old(title) && isDialogOpen == old(isDialogOpen)
    {
      if reply.Some? {
        content := reply.value;
      }
      isPromptLoading := false;
    }
  }
}
